# ExpenseLogger ledger core in Dafny

This project models the server side of ExpenseLogger, a personal expense tracker. One user's data is
a set of document collections: expenses, budgets and recurring-expense templates, plus one optional
balance document (`balance/current`) holding a cash amount and an online amount. The model covers:

- the expense routes: add, list with filters and search, edit, and delete, each keeping the balance
  in step;
- the recurring-expense routes: create a template, delete a template, and apply every template that
  is due;
- the budget routes: an upsert keyed on the pair (category, period), and delete;
- the balance routes: read with a zero default, and overwrite;
- the analytics routes: spending statistics (time windows, per-category and per-type sums, a 30-day
  per-day trend, a prediction) and budget alerts;
- the client-side form validators (amount, e-mail, required field, password).

The document store is `Ledger.Store`, a class whose fields are the collections as maps from id to
document, the optional balance, and an id allocator (`nextId`) standing in for the store's generated
ids. A route that writes is a method on the store. It states its whole new state and keeps the store
invariant `Store.Valid` (every id in use was allocated). Reading a collection (`collection.get()`)
is `Ledger.Snapshot`: it lists every document once, in an order the store chooses. Timestamps are
integer milliseconds in UTC. The stored ISO-8601 strings written by `toISOString` have a fixed
width, so comparing them as strings is comparing these integers. Amounts are exact reals. A numeric
request field (`amount`, `limitAmount`) is `Ledger.NumberField`: missing, a JSON number, or a
numeric string, which is what the app's own forms send. The routes' `!amount` test sees the raw
field, so the string `"0"` passes it and a zero amount or a zero budget limit can be stored. Month
and year arithmetic is a `Clock.Calendar` parameter that must be plausible: a month adds 28 to 31
days, a year 365 or 366, and a day of month is between 1 and 31.

The analytics routes are modelled on the query results they receive. `xs` is the expenses the query
returned, and `budgets` is the snapshot of the budgets collection. The statistics route uses the
month window the code evidently intends. The budget check is modelled twice: as written, and
corrected (see Findings).

Each file holds one module: `wrappers.dfy` (Option, Result), `text.dfy`, `seqs.dfy`, `clock.dfy`,
`ledger.dfy`, `expenses.dfy`, `recurring.dfy`, `budgets.dfy`, `balance.dfy` (module `Balances`),
`tally.dfy`, `analytics.dfy`, `validation.dfy`.

## Model

| member | source | states |
|---|---|---|
| Text.Lower | server/routes/expenses.js:93-95 | `toLowerCase` keeps the length and lower-cases each ASCII letter, leaving other characters |
| Text.LowerChar | server/routes/expenses.js:93 | an upper-case ASCII letter becomes its own lower-case letter (code point plus 32); any other character is unchanged |
| Text.IncludesIffOccurs | server/routes/expenses.js:94-95 | the left-to-right scan `Includes` holds exactly when the term occurs at some position of the text |
| Seqs.SortBy | server/routes/expenses.js:84 | the sort returns a permutation of its input, ordered by the key |
| Seqs.Insert | server/routes/expenses.js:84 | inserting adds exactly one element and removes none (multiset) |
| Seqs.InsertSorted | server/routes/expenses.js:84 | inserting into a sorted sequence keeps it sorted |
| Seqs.SortUnique | server/routes/analytics.js:72-75 | sorting keeps distinct keys distinct |
| Seqs.FilterSorted | server/routes/expenses.js:92-97 | filtering a sorted list keeps it sorted |
| Seqs.FilterSame | server/routes/expenses.js:72-97 | filters by predicates that agree everywhere give the same list |
| Seqs.FilterFilter | server/routes/expenses.js:72-97 | filtering by one predicate and then another is filtering by their conjunction |
| Seqs.FilterPermutation | server/routes/expenses.js:92-97 | filtering two permutations of one list gives permutations of each other |
| Clock.DayOf | server/routes/analytics.js:68 | the day number is the one whose 24-hour span contains the timestamp (the ISO prefix before `T`) |
| Clock.StartOfDay | server/routes/analytics.js:26 | `setHours(0,0,0,0)` gives a midnight (a whole number of days), the one at or before `t`, less than a day earlier, on the same day |
| Clock.DaysBefore | server/routes/analytics.js:27 | `setDate(getDate() - n)` lands exactly `n` days earlier, at the same time of day, never later than `t` |
| Clock.StartOfMonth | server/routes/analytics.js:130 | the first of the month is a midnight, `dayOfMonth - 1` days before `t`'s day, at or before its midnight and less than 31 days back |
| Ledger.Debit | server/routes/expenses.js:43-54 | with a balance document, only the field matching the type drops, by exactly the amount, and `updatedAt` is set; with none, there is still none |
| Ledger.Total | server/routes/analytics.js:34-35 | the `reduce` sum of non-negative amounts is non-negative, and the sum of one expense is its amount |
| Ledger.Credit | server/routes/expenses.js:203-214 | the refund raises only the field matching the type, by exactly the amount; with no balance document there is still none |
| Ledger.CreditUndoesDebit | server/routes/expenses.js:203-214 | refunding an expense of the same type and amount restores both balance amounts |
| Ledger.IdsOfEmpty | server/routes/recurring.js:101-157 | a list of documents has no ids exactly when it is empty |
| Ledger.Snapshot | server/routes/budgets.js:11-16 | the read lists every document of the collection exactly once, with its data |
| Ledger.Store.constructor | server/routes/balance.js:12-14 | a new user has no documents and no balance |
| Ledger.Store.NewId | server/routes/expenses.js:40 | an added document gets an id no document of any collection has |
| Expenses.AmountError | server/routes/expenses.js:19-25 | an amount passes exactly when 0 <= amount <= 10000, with the negative check first and then the too-large check |
| Expenses.ZeroAmount | server/routes/expenses.js:13-38 | the number 0 is refused as missing, while the string `"0"` passes and is stored as the amount 0 |
| Expenses.ValidateNew | server/routes/expenses.js:13-38 | add accepts exactly a truthy amount (a non-zero number, or any numeric string, `"0"` included) within bounds, a type of cash or online, and a category; a falsy field gives the "required" message, an amount out of bounds its bound message, and any other type "Type must be cash or online"; the document keeps the fields, and the date defaults to now |
| Expenses.Add | server/routes/expenses.js:7-61 | a rejected add changes nothing; an accepted one stores the document under a fresh id, advances the allocator by one, and debits only the matching balance field |
| Expenses.List | server/routes/expenses.js:64-104 | every listed expense is a document of the snapshot it is given and passes the category, date-range and search filters; the list is newest first; it is a permutation of exactly the matching documents |
| Expenses.InRange | server/routes/expenses.js:72-82 | a query with no filter keeps every expense; a kept expense has the category asked for, a date no earlier than the start bound when one is given, and no later than the end bound when one is given |
| Expenses.MatchesSearch | server/routes/expenses.js:92-97 | an expense matches exactly when the search is empty or its lower-cased term occurs somewhere in the lower-cased description; a term longer than the description never matches |
| Expenses.ListFacts | server/routes/expenses.js:72-97 | the same three facts, for the ordered list and for the searched one |
| Expenses.ListSearchFacts | server/routes/expenses.js:92-97 | searching the ordered list keeps it newest first and keeps exactly the documents that pass every filter |
| Expenses.SearchPermutation | server/routes/expenses.js:92-97 | searching after the store's filters and sort keeps the documents that pass both filters, in some order |
| Expenses.Revised | server/routes/expenses.js:134-141 | the edited document keeps `createdAt`, takes the new fields, and falls back to the old date when none is given |
| Expenses.Edit | server/routes/expenses.js:107-182 | an unknown id gives 404 and an amount out of bounds gives 400, both changing nothing; otherwise the document is replaced and the balance gets the old amount back on the old type's field and the new amount off the new type's field |
| Expenses.SameEditKeepsBalance | server/routes/expenses.js:152-174 | an edit keeping the type and amount leaves both balance amounts unchanged |
| Expenses.Delete | server/routes/expenses.js:185-221 | an unknown id gives 404 and changes nothing; otherwise the document is removed and its amount refunded to the matching field |
| Expenses.AddThenDelete | server/routes/expenses.js:203-214 | adding an expense and deleting it restores the expense collection and both balance amounts |
| Recurring.Advance | server/routes/recurring.js:42-50 | one period later: a day, a week, 28 to 31 days, or 365 to 366 days; strictly later exactly for the four known frequencies |
| Recurring.ValidateTemplate | server/routes/recurring.js:30-61 | create accepts exactly a truthy amount (a numeric string such as `"0"` included), a type, a category and a known frequency, with the two messages in order; the template is active, keeps the fields, and is due one period after now, strictly later |
| Recurring.Create | server/routes/recurring.js:25-70 | a rejected create changes nothing; an accepted one stores the template under a fresh id, advances the allocator by one, and changes nothing else |
| Recurring.Delete | server/routes/recurring.js:73-85 | removes only that template; an absent id changes nothing |
| Recurring.Materialize | server/routes/recurring.js:109-116 | the booked expense has the template's amount, type and category, the `[Recurring] ` description, and date and `createdAt` equal to now |
| Recurring.Fires | server/routes/recurring.js:98-107 | an inactive template, one with no due time, and one due after now do not fire; one that fires is due at or before now |
| Recurring.Advanced | server/routes/recurring.js:134-148 | the new due time is one period after the old due time, not after now, so it is strictly later for a known frequency; nothing else changes |
| Recurring.Materialized | server/routes/recurring.js:109-118 | the fired templates' expenses occupy exactly the consecutive ids from the first allocated one, one per template, in order |
| Recurring.DebitEach | server/routes/recurring.js:121-132 | the debits keep a missing balance document missing and a present one present, change nothing when nothing fired, and otherwise stamp `updatedAt` with now |
| Recurring.DebitEachTotals | server/routes/recurring.js:121-132 | the cash field drops by the sum of the cash templates and the online field by the sum of the others; with no balance document there is still none |
| Recurring.AdvanceAllFacts | server/routes/recurring.js:134-148 | exactly the fired templates are advanced; every other template is unchanged |
| Recurring.StepSkip | server/routes/recurring.js:107 | a template that does not fire is not recorded |
| Recurring.StepFire | server/routes/recurring.js:150-153 | a template that fires is recorded once, as it was read |
| Recurring.NextIdFresh | server/routes/recurring.js:103 | the document visited next was not visited before |
| Recurring.Fire | server/routes/recurring.js:109-148 | one firing books one expense under a fresh id, debits the balance, and writes back the advanced template |
| Recurring.BookedFire | server/routes/recurring.js:109-148 | booking one more due template of the snapshot books it under the next id, debits it last, advances it last and keeps the template ids |
| Recurring.ProgressFire | server/routes/recurring.js:107-153 | visiting a due template keeps the loop invariant: everything so far is booked, debited and advanced exactly once |
| Recurring.ProgressSkip | server/routes/recurring.js:107 | visiting a template that is not due keeps the loop invariant |
| Recurring.ProgressDone | server/routes/recurring.js:101-155 | after the whole snapshot, exactly the due templates have fired, each once, with their expenses, debits and advances |
| Recurring.NothingDue | server/routes/recurring.js:101-157 | when no template is due, nothing is applied and no collection, balance or id changes |
| Recurring.Visit | server/routes/recurring.js:103-154 | one turn of the loop fires the template exactly when it is active and due, and keeps the invariant |
| Recurring.VisitAll | server/routes/recurring.js:101-155 | the loop visits every template once and ends with the invariant over the whole snapshot |
| Recurring.Apply | server/routes/recurring.js:88-162 | `applied` lists exactly the active due templates once each, as read; one expense each under fresh ids, the balance debited for each, each due time advanced one period, nothing else changed; nothing changes when none is due |
| Budgets.ValidateBudget | server/routes/budgets.js:30-43 | upsert accepts exactly a category, a truthy limit (a numeric string such as `"0"` included) and a known period, with the two messages in order; the data keeps the fields and `Number(limitAmount)` |
| Budgets.ZeroLimit | server/routes/budgets.js:30-40 | the number 0 is refused as missing, while the string `"0"` passes and is stored as a zero limit |
| Budgets.AtMostOneMatch | server/routes/budgets.js:54-56 | when pairs are unique, a pair names at most one budget |
| Budgets.WriteKeepsUnique | server/routes/budgets.js:54-63 | writing under the matching id, or a fresh one when none matches, keeps pairs unique |
| Budgets.NoMatchInSnapshot | server/routes/budgets.js:46-54 | an empty query result means no stored budget has the pair |
| Budgets.FindExisting | server/routes/budgets.js:46-56 | the query finds a budget with the pair exactly when one exists |
| Budgets.Upsert | server/routes/budgets.js:25-68 | a rejected upsert changes nothing; otherwise the existing budget with the pair is overwritten under its id ("Budget updated", allocator unchanged), or a new one is added under a fresh id ("Budget created", allocator advanced by one); unique pairs stay unique |
| Budgets.UpsertTwice | server/routes/budgets.js:45-63 | posting the same budget twice gives the same id, "Budget updated" the second time, and the state after the first post |
| Budgets.Delete | server/routes/budgets.js:71-83 | removes only that id; an absent id succeeds and changes nothing |
| Balances.Get | server/routes/balance.js:7-21 | no balance document reads as cash 0 and online 0; otherwise the stored amounts and time |
| Balances.Set | server/routes/balance.js:23-47 | a missing field gives 400 and changes nothing; otherwise both fields are overwritten, so a read returns exactly the values set |
| Balances.SetTwice | server/routes/balance.js:34-40 | setting the same amounts twice leaves the amounts of setting them once |
| Balances.GetAfterDebit | server/routes/expenses.js:43-54 | after an expense the read balance sums to the amount less, with the other field unchanged; with no document it still reads zero |
| Tally.AddTo | server/routes/analytics.js:53-59 | adding to a key raises that key's amount and the sum by the amount; a new key is appended, an old key keeps its place; keys stay unique |
| Tally.LookupMember | server/routes/analytics.js:72-75 | in a tally with unique keys, each entry holds the amount for its key |
| Analytics.TotalConcat | server/routes/analytics.js:34-35 | the `reduce` sum of two lists joined is the sum of their sums |
| Analytics.FilterTotalSnoc | server/routes/analytics.js:30-46 | one more expense adds its amount and one to the count exactly when it passes the filter |
| Analytics.WindowOf | server/routes/analytics.js:30-46 | a window counts at most every expense, and its total is non-negative when no amount is negative |
| Analytics.WindowsNest | server/routes/analytics.js:30-46 | a window that starts later holds no more expenses, and no larger total when amounts are non-negative |
| Analytics.StatsStartsAsWritten | server/routes/analytics.js:25-28 | as written: today's midnight, seven days before it, and the first of the month of that week start; monthStart <= weekStart <= todayStart <= now |
| Analytics.AsWrittenCountsNest | server/routes/analytics.js:26-32 | as written, the counts satisfy today <= week <= month |
| Analytics.StatsStarts | server/routes/analytics.js:25-28 | corrected: the month window starts on the first of the current month, at or before today's midnight |
| Analytics.ThirtyDayCalendar | server/routes/analytics.js:28 | a calendar of 30-day months is plausible |
| Analytics.MonthWindowReachesBack | server/routes/analytics.js:26-32 | on day 4 of a month, the as-written month window counts an expense from the previous month; the corrected one does not |
| Analytics.TallyFacts | server/routes/analytics.js:53-70 | a tally has unique keys, a key is present exactly when some expense has it, each key holds that key's total, and the amounts sum to the total |
| Analytics.TallySum | server/routes/analytics.js:53-57 | a tally's keys are unique and its amounts add up to the total of all expenses |
| Analytics.TallyOne | server/routes/analytics.js:67-70 | a key holds the total of its expenses, and is present exactly when some expense has it |
| Analytics.TallyBy | server/routes/analytics.js:53-70 | a tally has at most one entry per expense, and is empty exactly when there are no expenses |
| Analytics.KindTotalsSplit | server/routes/analytics.js:58 | when every type is cash or online, `byType.cash + byType.online` is the total |
| Analytics.KindTotal | server/routes/analytics.js:58 | with non-negative amounts, `byType[kind]` lies between zero and the total |
| Analytics.Breakdown | server/routes/analytics.js:53-59 | the loop builds the per-category tally and the cash and online sums |
| Analytics.UniqueDays | server/routes/analytics.js:66-75 | a tally's days are distinct |
| Analytics.Recent | server/routes/analytics.js:62-64 | the recent expenses are expenses of the input dated no earlier than thirty days before now |
| Analytics.DailyTotals | server/routes/analytics.js:66-70 | the loop builds the per-day tally of the recent expenses |
| Analytics.SortedTally | server/routes/analytics.js:72-75 | the sorted trend has distinct days, each holding that day's total |
| Analytics.Trend | server/routes/analytics.js:62-75 | the trend is the per-day tally of the last 30 days, sorted by day, with unique days and each amount the sum of that day's expenses |
| Analytics.Round | server/routes/analytics.js:80-81 | `Math.round` is within half of its argument, halves rounding up |
| Analytics.Predict | server/routes/analytics.js:77-82 | `nextMonth` is the month total rounded, since `avgDaily * 30` is the unrounded total; `avgDaily` is the rounded average |
| Analytics.PredictionsAgree | server/routes/analytics.js:78-81 | thirty times the rounded average is within 15 of `nextMonth` |
| Analytics.GetStats | server/routes/analytics.js:7-89 | corrected: each window is the count and sum of the expenses at or after its start, with the month window from the first of the current month; today's count is at most the week's and the month's; the breakdown, trend and prediction are as above |
| Analytics.PeriodStart | server/routes/analytics.js:121-132 | daily is today's midnight, weekly seven days back, monthly the first of the month; an unknown period has no start |
| Analytics.Percentage | server/routes/analytics.js:139 | over a non-zero limit a finite percentage with percentage times limit equal to 100 times spent; over a zero limit +Infinity, -Infinity or NaN as the spending is positive, negative or zero |
| Analytics.MathRound | server/routes/analytics.js:146 | `Math.round` turns a finite value into a whole number within half of it, and keeps infinities and NaN |
| Analytics.AlertFor | server/routes/analytics.js:139-150 | an alert exactly when the percentage is at least 90 (+Infinity counts, NaN does not); `danger` exactly from 100, otherwise `warning`; fields copied and percentage rounded; over a zero limit, an alert exactly when something was spent, `danger` with an infinite percentage |
| Analytics.AlertsOf | server/routes/analytics.js:121-150 | one budget raises at most one alert, for its own category and period, at 90% or more |
| Analytics.Alerts | server/routes/analytics.js:117-153 | corrected: every alert is at 90% or more |
| Analytics.AlertsConcat | server/routes/analytics.js:120-151 | corrected: a budget's alert does not depend on the budgets before it |
| Analytics.AlertsBound | server/routes/analytics.js:141-150 | at most one alert per budget |
| Analytics.CheckOne | server/routes/analytics.js:121-150 | corrected callback: the budget's alerts with its period measured from the request time |
| Analytics.CheckBudgets | server/routes/analytics.js:117-153 | corrected loop: the alerts of the budgets in order, each measured from the request time |
| Analytics.AsWrittenStep | server/routes/analytics.js:120-124 | as written, a budget's alerts are measured from the shared clock, and a daily budget moves that clock to midnight for the budgets after it |
| Analytics.AlertsAsWritten | server/routes/analytics.js:117-153 | as written: every alert is at 90% or more |
| Analytics.CheckOneAsWritten | server/routes/analytics.js:121-150 | as-written callback: alerts from the shared clock, and the clock it leaves behind |
| Analytics.CheckBudgetsAsWritten | server/routes/analytics.js:117-153 | as-written loop: the alerts with the shared `now` that daily budgets move |
| Analytics.OneExpenseAlerts | server/routes/analytics.js:134-150 | with one expense, a budget's spent amount is that amount if it is in the category and period, otherwise zero |
| Analytics.WeeklyFromNow | server/routes/analytics.js:125-128 | measured from noon on day 10, a day-3 expense is outside the weekly window |
| Analytics.WeeklyFromMidnight | server/routes/analytics.js:123-128 | measured from midnight of day 10, the same expense is inside it and fills the budget |
| Analytics.DailyQuiet | server/routes/analytics.js:123-124 | the daily budget of the example raises no alert |
| Analytics.WeeklyWindowMovedByDailyBudget | server/routes/analytics.js:120-132 | as written, a daily budget listed first makes the weekly budget raise a `danger` alert that it raises neither alone nor in the corrected check |
| Validation.ValidateAmount | src/utils/validation.js:1-17 | null exactly for a number with 0 <= n <= 10000; otherwise not-a-number, then negative, then too large |
| Validation.AmountChecksAgree | src/utils/validation.js:8-14 | for numbers, the client accepts exactly what the server's bound checks accept, with the same messages |
| Validation.FirstAt | src/utils/validation.js:20 | the first `@` (or the end): no `@` before it |
| Validation.MatchesEmailIff | src/utils/validation.js:20 | the test, splitting at the first `@`, holds exactly for the shape local@domain.tld with no white space or other `@` |
| Validation.ValidateEmail | src/utils/validation.js:19-31 | null exactly for a non-empty address of that shape; "Email is required" for empty, "Invalid email address" otherwise |
| Validation.ValidateRequired | src/utils/validation.js:33-39 | an error exactly when the value is empty or only white space, naming the field or "This field" |
| Validation.ValidatePassword | src/utils/validation.js:41-51 | null exactly when at least 6 characters; "Password is required" for empty, the length message otherwise |

## Left out

- Authentication (`req.user`), the profile route, the React pages, the service worker and HTTP wiring are not part of this model.
- Failures of the store (the 500 responses) are not modelled: every read and write succeeds.
- Concurrent requests are not modelled: each handler runs atomically on the store, so lost updates and duplicate upserts between requests are out of scope.
- Numbers are exact reals: IEEE rounding of sums and divisions is not modelled, and `Math.round` is exact.
- A request field that `Number()` reads as NaN (a non-numeric string) is not modelled: a numeric field is missing, a JSON number or a numeric string. An edit with an absent amount (NaN in the source, which passes both bound checks) is outside the model.
- Expenses.Edit: takes the amount as a number, so it does not capture the NaN amount an edit without `amount` writes.
- A field that is `undefined` would make the store reject the write. Absent strings are modelled as `""`, which the routes store as given.
- Local time zones and daylight saving are not modelled: `setHours` and day boundaries are in UTC.
- `Date` month and year arithmetic (`setMonth`, `setFullYear`, `getDate`) is the `Calendar` parameter, constrained only by `Plausible`. Calendar rollover is not modelled. `ThirtyDayCalendar` serves only the two counterexamples.
- `toLowerCase` lower-cases ASCII letters only, and string length counts code points, not UTF-16 units.
- The statistics route's `byType` for a type other than cash or online (the source adds to a missing key, giving NaN) is not modelled. Analytics.Breakdown sums only cash and online.
- The integer-like key ordering of JavaScript objects is not modelled: tallies keep their keys in first-insertion order.
- Analytics.Breakdown: a category named like an inherited member of a plain JavaScript object is not modelled. The source builds `byCategory` on `{}` (server/routes/analytics.js:47,54-57), and a category is free text. For "constructor", "toString", "valueOf" or "hasOwnProperty", `!byCategory[c]` sees the inherited function. The `+=` then turns the entry into a string: the function's source text followed by the amount. For "__proto__", the write goes to the prototype setter, which ignores a number, so the key never appears. The model tallies these categories like any other. `TallySum`'s "the amounts add up to the total" therefore holds for the source only when no category has such a name. The daily tally is not affected, because its keys are dates.
- Analytics.GetStats and Analytics.CheckBudgets take the query results as parameters. The store reads are `Ledger.Snapshot`, and the `orderBy('date', 'desc')` of the statistics query is not needed by any stated property.
- The GET routes of the recurring and budget collections are plain reads, modelled by `Ledger.Snapshot`.
- Analytics.GetStats: uses the intended month window of the first finding (`StatsStarts`); the window as written is `StatsStartsAsWritten`, proved separately.
- The `startDate` and `endDate` bounds of the list query are taken as full timestamps. A date-only bound such as `2024-01-31` compares as a string before every timestamp of that day, which the model does not capture.
- The JSON serialisation of an infinite alert percentage (`null`) is not modelled; the alert holds +Infinity.
- A template with an unknown frequency (never written by the routes) keeps its due time on apply, so it fires on every apply.
- The response message texts that hold counts ("Applied N recurring expense(s)") and the success messages of add, edit, delete and set are not modelled. The returned data is.
- Recurring.Apply reads only active templates in the source (`where('active', '==', true)`). The model reads all templates and tests `active` in the loop, which fires the same set.

## Findings

| source | as written | input that shows it | evidently intended | confidence | as-written member | corrected member |
|---|---|---|---|---|---|---|
| server/routes/analytics.js:26-32 | `now` is moved back a week before `setDate(1)`, so the month window starts on the first of the month of the week start | on day 4 of a month (30-day calendar, noon of day 3 after epoch), an expense ten days earlier, in the previous month, is counted in "month" | the month window starts on the first of the current month | not executed | Analytics.StatsStartsAsWritten, Analytics.MonthWindowReachesBack | Analytics.StatsStarts |
| server/routes/analytics.js:120-132 | a `daily` budget runs `now.setHours(0,0,0,0)` on the shared `now`, so every later weekly budget measures seven days back from midnight instead of from the request time | noon on day 10; a daily Rent budget, then a weekly Food budget of 100; one Food expense of 100 at the start of day 3. As written, a `danger` alert; corrected, none | each budget's period is measured from the time of the request | not executed | Analytics.AlertsAsWritten, Analytics.CheckBudgetsAsWritten, Analytics.WeeklyWindowMovedByDailyBudget | Analytics.Alerts, Analytics.CheckBudgets, Analytics.AlertsConcat |
