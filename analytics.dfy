/** The analytics routes: spending statistics (`GET /api/stats`) and budget alerts
    (`GET /api/stats/budget/check`). Both work on the query results they are given: `xs` is the
    expenses collection as the query returned it, `budgets` the budgets collection. */
module Analytics {
  import opened Wrappers
  import opened Clock
  import opened Seqs
  import opened Tally
  import opened Ledger
  import Budgets

  // ---------------------------------------------------------------------------------------------
  // Sums

  /** Summing distributes over concatenation. */
  lemma {:induction false} TotalConcat(a: seq<Expense>, b: seq<Expense>)
    ensures Total(a + b) == Total(a) + Total(b)
    decreases |b|
  {
    if b == [] {
      assert a + b == a;
    } else {
      TotalConcat(a, b[..|b| - 1]);
      assert (a + b)[..|a + b| - 1] == a + b[..|b| - 1];
    }
  }

  /** Filtering a one-element sequence. */
  lemma FilterOne(e: Expense, p: Expense -> bool)
    ensures Filter([e], p) == if p(e) then [e] else []
  {
    assert [e][1..] == [];
  }

  /** The total of the expenses of `xs` accepted by `p`, appending one more expense. */
  lemma FilterTotalSnoc(xs: seq<Expense>, e: Expense, p: Expense -> bool)
    ensures Total(Filter(xs + [e], p)) == Total(Filter(xs, p)) + (if p(e) then e.amount else 0.0)
    ensures |Filter(xs + [e], p)| == |Filter(xs, p)| + (if p(e) then 1 else 0)
  {
    FilterConcat(xs, [e], p);
    FilterOne(e, p);
    TotalConcat(Filter(xs, p), Filter([e], p));
  }

  // ---------------------------------------------------------------------------------------------
  // Windows

  /** `{ total, count }` of one statistics window. */
  datatype Window = Window(total: real, count: nat)

  /** `e => e.date >= start`. */
  function OnOrAfter(start: Time): Expense -> bool
  {
    (e: Expense) => e.date >= start
  }

  /** The window of the expenses dated at or after `start`: their summed amounts and their number. */
  function WindowOf(xs: seq<Expense>, start: Time): (w: Window)
    ensures w.count <= |xs|
    ensures (forall i :: 0 <= i < |xs| ==> xs[i].amount >= 0.0) ==> w.total >= 0.0
  {
    var inside := Filter(xs, OnOrAfter(start));
    assert forall j :: 0 <= j < |inside| ==> inside[j] in xs;
    Window(Total(inside), |inside|)
  }

  /** A window that starts later holds no more expenses, and, when no amount is negative, no larger total. */
  lemma {:induction false} WindowsNest(xs: seq<Expense>, early: Time, late: Time)
    requires early <= late
    ensures WindowOf(xs, late).count <= WindowOf(xs, early).count
    ensures (forall k :: 0 <= k < |xs| ==> xs[k].amount >= 0.0) ==>
      WindowOf(xs, late).total <= WindowOf(xs, early).total
    decreases |xs|
  {
    if xs != [] {
      var prefix, last := xs[..|xs| - 1], xs[|xs| - 1];
      assert xs == prefix + [last];
      WindowsNest(prefix, early, late);
      FilterTotalSnoc(prefix, last, OnOrAfter(early));
      FilterTotalSnoc(prefix, last, OnOrAfter(late));
      if forall k :: 0 <= k < |xs| ==> xs[k].amount >= 0.0 {
        assert forall k :: 0 <= k < |prefix| ==> prefix[k] == xs[k];
      }
    }
  }

  /** The three window starts of the statistics route. */
  datatype Starts = Starts(today: Time, week: Time, month: Time)

  /** The window starts as the route computes them: `now.setHours(0,0,0,0)` gives today's midnight,
      `now.setDate(now.getDate() - 7)` moves that same `now` a week back, and `now.setDate(1)` then
      moves the week start, not today, to the first of its month. */
  function StatsStartsAsWritten(now: Time, cal: Calendar): (s: Starts)
    requires Plausible(cal)
    ensures s.month <= s.week <= s.today <= now
    ensures s.today == StartOfDay(now) && s.week == s.today - 7 * MsPerDay
    ensures DayOf(s.month) == DayOf(s.week) - (cal.dayOfMonth(s.week) - 1)
  {
    var today := StartOfDay(now);
    var week := DaysBefore(today, 7);
    Starts(today, week, StartOfMonth(cal, week))
  }

  /** As written, the window starts are nested, so the counts are too: today's window holds no more
      expenses than the week's, and the week's no more than the month's. */
  lemma AsWrittenCountsNest(xs: seq<Expense>, now: Time, cal: Calendar)
    requires Plausible(cal)
    ensures var s := StatsStartsAsWritten(now, cal);
      WindowOf(xs, s.today).count <= WindowOf(xs, s.week).count <= WindowOf(xs, s.month).count
  {
    var s := StatsStartsAsWritten(now, cal);
    WindowsNest(xs, s.week, s.today);
    WindowsNest(xs, s.month, s.week);
  }

  /** The window starts the route evidently means: today's midnight, a week before it, and midnight
      on the first of the current month. */
  function StatsStarts(now: Time, cal: Calendar): (s: Starts)
    requires Plausible(cal)
    ensures s.week <= s.today <= now && s.month <= s.today
    ensures s.today == StartOfDay(now) && s.week == s.today - 7 * MsPerDay
    ensures DayOf(s.month) == DayOf(now) - (cal.dayOfMonth(now) - 1)
  {
    var today := StartOfDay(now);
    Starts(today, DaysBefore(today, 7), StartOfMonth(cal, now))
  }

  /** A calendar of thirty-day months counted from the epoch; enough to exhibit the window starts. */
  function ThirtyDayCalendar(): (cal: Calendar)
    ensures Plausible(cal)
  {
    Calendar(t => t + 30 * MsPerDay, t => t + 365 * MsPerDay, t => DayOf(t) % 30 + 1)
  }

  /** As written, during the first week of a month the "month" window reaches back into the previous
      month: on day 4 of a month, an expense from ten days earlier is counted. */
  lemma MonthWindowReachesBack()
    ensures
      var cal, now := ThirtyDayCalendar(), 3 * MsPerDay + MsPerDay / 2;
      var e := Expense(50.0, Cash, "Food", "", -10 * MsPerDay, -10 * MsPerDay);
      && e.date < StartOfMonth(cal, now)
      && WindowOf([e], StatsStartsAsWritten(now, cal).month) == Window(50.0, 1)
      && WindowOf([e], StatsStarts(now, cal).month) == Window(0.0, 0)
  {
    var cal, now := ThirtyDayCalendar(), 3 * MsPerDay + MsPerDay / 2;
    var e := Expense(50.0, Cash, "Food", "", -10 * MsPerDay, -10 * MsPerDay);
    assert StatsStartsAsWritten(now, cal).month == -30 * MsPerDay;
    assert StatsStarts(now, cal).month == 0;
    FilterOne(e, OnOrAfter(-30 * MsPerDay));
    FilterOne(e, OnOrAfter(0));
    assert Total([e]) == Total([]) + 50.0;
  }

  // ---------------------------------------------------------------------------------------------
  // Breakdowns

  /** `e => key(e) === k`. */
  function WithKey<K(==)>(key: Expense -> K, k: K): Expense -> bool
  {
    (e: Expense) => key(e) == k
  }

  /** The tally `forEach(e => obj[key(e)] = (obj[key(e)] || 0) + e.amount)` builds. */
  function TallyBy<K(==,!new)>(xs: seq<Expense>, key: Expense -> K): (r: seq<Entry<K>>)
    ensures |r| <= |xs|
    ensures r == [] <==> xs == []
  {
    if xs == [] then []
    else
      var last := xs[|xs| - 1];
      AddTo(TallyBy(xs[..|xs| - 1], key), key(last), last.amount)
  }

  /** A tally has one entry per key that occurs, holds under each key the total of that key's
      expenses, and its amounts add up to the total of all expenses. */
  lemma TallyFacts<K(!new)>(xs: seq<Expense>, key: Expense -> K)
    ensures UniqueKeys(TallyBy(xs, key))
    ensures SumOf(TallyBy(xs, key)) == Total(xs)
    ensures forall k :: Lookup(TallyBy(xs, key), k) == Total(Filter(xs, WithKey(key, k)))
    ensures forall k :: k in KeySet(TallyBy(xs, key)) <==> |Filter(xs, WithKey(key, k))| > 0
  {
    TallySum(xs, key);
    forall k
      ensures Lookup(TallyBy(xs, key), k) == Total(Filter(xs, WithKey(key, k)))
      ensures k in KeySet(TallyBy(xs, key)) <==> |Filter(xs, WithKey(key, k))| > 0
    {
      TallyOne(xs, key, k);
    }
  }

  /** The tally's keys are unique and its amounts add up to the total. */
  lemma {:induction false} TallySum<K(!new)>(xs: seq<Expense>, key: Expense -> K)
    ensures UniqueKeys(TallyBy(xs, key))
    ensures SumOf(TallyBy(xs, key)) == Total(xs)
    decreases |xs|
  {
    if xs != [] {
      TallySum(xs[..|xs| - 1], key);
    }
  }

  /** Under one key the tally holds that key's total, and holds the key exactly when some expense has it. */
  lemma {:induction false} TallyOne<K(!new)>(xs: seq<Expense>, key: Expense -> K, k: K)
    ensures Lookup(TallyBy(xs, key), k) == Total(Filter(xs, WithKey(key, k)))
    ensures k in KeySet(TallyBy(xs, key)) <==> |Filter(xs, WithKey(key, k))| > 0
    decreases |xs|
  {
    if xs != [] {
      var prefix, last := xs[..|xs| - 1], xs[|xs| - 1];
      assert xs == prefix + [last];
      TallyOne(prefix, key, k);
      FilterTotalSnoc(prefix, last, WithKey(key, k));
    }
  }

  function CategoryKey(e: Expense): string
  {
    e.category
  }

  function DayKey(e: Expense): int
  {
    DayOf(e.date)
  }

  /** `byType[kind]` for `kind` one of the two initial keys: the summed amounts of that type. */
  function KindTotal(xs: seq<Expense>, kind: string): (r: real)
    ensures (forall i :: 0 <= i < |xs| ==> xs[i].amount >= 0.0) ==> 0.0 <= r <= Total(xs)
  {
    if xs == [] then 0.0
    else
      var last := xs[|xs| - 1];
      KindTotal(xs[..|xs| - 1], kind) + (if last.kind == kind then last.amount else 0.0)
  }

  /** When every expense is cash or online, the two `byType` amounts add up to the total. */
  lemma {:induction false} KindTotalsSplit(xs: seq<Expense>)
    requires forall k :: 0 <= k < |xs| ==> xs[k].kind == Cash || xs[k].kind == Online
    ensures KindTotal(xs, Cash) + KindTotal(xs, Online) == Total(xs)
    decreases |xs|
  {
    if xs != [] {
      var prefix := xs[..|xs| - 1];
      assert forall k :: 0 <= k < |prefix| ==> prefix[k] == xs[k];
      KindTotalsSplit(prefix);
    }
  }

  /** The category and type breakdown loop of the statistics route. */
  method Breakdown(xs: seq<Expense>) returns (byCategory: seq<Entry<string>>, cash: real, online: real)
    ensures byCategory == TallyBy(xs, CategoryKey)
    ensures cash == KindTotal(xs, Cash) && online == KindTotal(xs, Online)
  {
    byCategory, cash, online := [], 0.0, 0.0;
    for i := 0 to |xs|
      invariant byCategory == TallyBy(xs[..i], CategoryKey)
      invariant cash == KindTotal(xs[..i], Cash) && online == KindTotal(xs[..i], Online)
    {
      var e := xs[i];
      assert xs[..i + 1][..i] == xs[..i];
      byCategory := AddTo(byCategory, e.category, e.amount);
      if e.kind == Cash {
        cash := cash + e.amount;
      } else if e.kind == Online {
        online := online + e.amount;
      }
    }
    assert xs[..|xs|] == xs;
  }

  // ---------------------------------------------------------------------------------------------
  // Trend

  /** The sort key of a trend entry, its day. */
  function EntryDay(e: Entry<int>): int
  {
    e.key
  }

  /** A tally with unique keys has unique days. */
  lemma {:induction false} UniqueDays(entries: seq<Entry<int>>)
    requires UniqueKeys(entries)
    ensures UniqueBy(entries, EntryDay)
  {
    if entries != [] {
      var rest := entries[1..];
      UniqueDays(rest);
      forall j | 0 < j < |entries| ensures entries[0].key != entries[j].key {
        assert entries[j] == rest[j - 1];
        KeySetMember(rest, rest[j - 1]);
      }
    }
  }

  /** The expenses of the last thirty days: `new Date(e.date) >= thirtyDaysAgo`. */
  function Recent(xs: seq<Expense>, now: Time): (r: seq<Expense>)
    ensures |r| <= |xs|
    ensures forall e :: e in r ==> e in xs && e.date >= now - 30 * MsPerDay
  {
    Filter(xs, OnOrAfter(DaysBefore(now, 30)))
  }

  /** The trend: the last thirty days' expenses summed per day (`dailyTotals`), then the entries
      sorted by day. */
  method Trend(xs: seq<Expense>, now: Time) returns (trend: seq<Entry<int>>)
    ensures multiset(trend) == multiset(TallyBy(Recent(xs, now), DayKey))
    ensures SortedBy(trend, EntryDay) && UniqueBy(trend, EntryDay)
    ensures forall k :: 0 <= k < |trend| ==>
      trend[k].amount == Total(Filter(Recent(xs, now), WithKey(DayKey, trend[k].key)))
  {
    var recent := Recent(xs, now);
    var daily := DailyTotals(recent);
    trend := SortBy(daily, EntryDay);
    SortedTally(recent);
  }

  /** The `dailyTotals` loop: each expense's amount added under its day, days in first-seen order. */
  method DailyTotals(xs: seq<Expense>) returns (daily: seq<Entry<int>>)
    ensures daily == TallyBy(xs, DayKey)
  {
    daily := [];
    for i := 0 to |xs|
      invariant daily == TallyBy(xs[..i], DayKey)
    {
      var e := xs[i];
      assert xs[..i + 1][..i] == xs[..i];
      daily := AddTo(daily, DayOf(e.date), e.amount);
    }
    assert xs[..|xs|] == xs;
  }

  /** Sorting the per-day tally by day keeps one entry per day, each holding its day's total. */
  lemma SortedTally(xs: seq<Expense>)
    ensures var trend := SortBy(TallyBy(xs, DayKey), EntryDay);
      && UniqueBy(trend, EntryDay)
      && forall k :: 0 <= k < |trend| ==> trend[k].amount == Total(Filter(xs, WithKey(DayKey, trend[k].key)))
  {
    var daily := TallyBy(xs, DayKey);
    var trend := SortBy(daily, EntryDay);
    TallyFacts(xs, DayKey);
    UniqueDays(daily);
    SortUnique(daily, EntryDay);
    forall k | 0 <= k < |trend|
      ensures trend[k].amount == Total(Filter(xs, WithKey(DayKey, trend[k].key)))
    {
      assert trend[k] in multiset(daily);
      LookupMember(daily, trend[k]);
    }
  }

  // ---------------------------------------------------------------------------------------------
  // Prediction

  /** `Math.round`: the nearest integer, halves rounded up. */
  function Round(x: real): (r: int)
    ensures x - 0.5 < r as real <= x + 0.5
  {
    (x + 0.5).Floor
  }

  datatype Prediction = Prediction(nextMonth: int, avgDaily: int)

  /** `avgDaily = month.total / 30`, then `nextMonth = round(avgDaily * 30)` and `round(avgDaily)`. */
  function Predict(monthTotal: real): (p: Prediction)
    ensures p.nextMonth == Round(monthTotal)
    ensures p.avgDaily == Round(monthTotal / 30.0)
  {
    var avgDaily := monthTotal / 30.0;
    Prediction(Round(avgDaily * 30.0), Round(avgDaily))
  }

  /** The two rounded figures disagree by at most 15: `30 * avgDaily` is within 15 of the month total. */
  lemma PredictionsAgree(monthTotal: real)
    ensures -15 <= 30 * Predict(monthTotal).avgDaily - Predict(monthTotal).nextMonth <= 15
  {
    var p := Predict(monthTotal);
    assert monthTotal / 30.0 - 0.5 < p.avgDaily as real <= monthTotal / 30.0 + 0.5;
    assert monthTotal - 15.0 < (30 * p.avgDaily) as real <= monthTotal + 15.0;
  }

  // ---------------------------------------------------------------------------------------------
  // Statistics

  datatype Stats = Stats(
    today: Window, week: Window, month: Window,
    byCategory: seq<Entry<string>>, cash: real, online: real,
    trends: seq<Entry<int>>, prediction: Prediction)

  /** `GET /api/stats` over the expenses `xs`, with the month window starting on the first of the
      current month. */
  method GetStats(xs: seq<Expense>, now: Time, cal: Calendar) returns (s: Stats)
    requires Plausible(cal)
    ensures
      var starts := StatsStarts(now, cal);
      && s.today == WindowOf(xs, starts.today)
      && s.week == WindowOf(xs, starts.week)
      && s.month == WindowOf(xs, starts.month)
    ensures s.today.count <= s.week.count && s.today.count <= s.month.count
    ensures s.byCategory == TallyBy(xs, CategoryKey)
    ensures s.cash == KindTotal(xs, Cash) && s.online == KindTotal(xs, Online)
    ensures multiset(s.trends) == multiset(TallyBy(Recent(xs, now), DayKey))
    ensures SortedBy(s.trends, EntryDay) && UniqueBy(s.trends, EntryDay)
    ensures s.prediction.nextMonth == Round(s.month.total)
    ensures s.prediction.avgDaily == Round(s.month.total / 30.0)
  {
    var starts := StatsStarts(now, cal);
    var today := WindowOf(xs, starts.today);
    var week := WindowOf(xs, starts.week);
    var month := WindowOf(xs, starts.month);
    WindowsNest(xs, starts.week, starts.today);
    WindowsNest(xs, starts.month, starts.today);
    var byCategory, cash, online := Breakdown(xs);
    var trends := Trend(xs, now);
    s := Stats(today, week, month, byCategory, cash, online, trends, Predict(month.total));
  }

  // ---------------------------------------------------------------------------------------------
  // Budget alerts

  /** A JavaScript number as the percentage computation can produce it: finite, an infinity, or NaN. */
  datatype Double = Finite(value: real) | PlusInfinity | MinusInfinity | NaN

  /** `x >= bound`: true for +Infinity, false for -Infinity and for NaN. */
  predicate AtLeast(x: Double, bound: real)
  {
    x.PlusInfinity? || (x.Finite? && x.value >= bound)
  }

  /** `Math.round`: a finite value rounds half up; infinities and NaN are returned as they are. */
  function MathRound(x: Double): (r: Double)
    ensures r.Finite? <==> x.Finite?
    ensures x.Finite? ==> x.value - 0.5 < r.value <= x.value + 0.5 && r.value == r.value.Floor as real
    ensures !x.Finite? ==> r == x
  {
    if x.Finite? then Finite(Round(x.value) as real) else x
  }

  /** An alert of the response. A `percentage` of +Infinity (a zero limit) is serialised as `null`. */
  datatype Alert = Alert(
    category: string, period: string, limit: real, spent: real, percentage: Double, severity: string)

  /** The start of a budget's period seen from `clock`; `None` (the route's `undefined`) for a period
      it does not know, which no expense date compares as at or after. */
  function PeriodStart(period: string, clock: Time, cal: Calendar): (r: Option<Time>)
    requires Plausible(cal)
    ensures r.Some? <==> Budgets.IsPeriod(period)
    ensures r.Some? ==> r.value <= clock
    ensures period == "daily" ==> r == Some(StartOfDay(clock))
    ensures period == "weekly" ==> r == Some(clock - 7 * MsPerDay)
    ensures period == "monthly" ==> r == Some(StartOfMonth(cal, clock))
  {
    if period == "daily" then Some(StartOfDay(clock))
    else if period == "weekly" then Some(DaysBefore(clock, 7))
    else if period == "monthly" then Some(StartOfMonth(cal, clock))
    else None
  }

  /** `e => e.category === category && e.date >= periodStart`. */
  function InBudget(category: string, start: Option<Time>): Expense -> bool
  {
    (e: Expense) => e.category == category && start.Some? && e.date >= start.value
  }

  /** `(totalSpent / budget.limitAmount) * 100`. Over a zero limit the quotient is the infinity with
      the sign of `spent`, or NaN when nothing was spent. */
  function Percentage(spent: real, limit: real): (p: Double)
    ensures limit != 0.0 ==> p.Finite? && p.value * limit == spent * 100.0
    ensures limit == 0.0 ==> (p.PlusInfinity? <==> spent > 0.0)
    ensures limit == 0.0 ==> (p.MinusInfinity? <==> spent < 0.0)
    ensures limit == 0.0 ==> (p.NaN? <==> spent == 0.0)
  {
    if limit != 0.0 then Finite(spent / limit * 100.0)
    else if spent > 0.0 then PlusInfinity
    else if spent < 0.0 then MinusInfinity
    else NaN
  }

  /** The alert for one budget whose category spent `spent` in its period: one at 90% or more of
      the limit, `danger` from 100%, `warning` below. A zero limit alerts, as `danger` with an
      infinite percentage, exactly when something was spent. */
  function AlertFor(b: Budget, spent: real): (r: Option<Alert>)
    ensures r.Some? <==> AtLeast(Percentage(spent, b.limitAmount), 90.0)
    ensures b.limitAmount == 0.0 ==> (r.Some? <==> spent > 0.0)
    ensures r.Some? ==>
      && r.value.category == b.category && r.value.period == b.period
      && r.value.limit == b.limitAmount && r.value.spent == spent
      && r.value.percentage == MathRound(Percentage(spent, b.limitAmount))
      && AtLeast(r.value.percentage, 90.0)
      && (r.value.severity == "danger" <==> AtLeast(Percentage(spent, b.limitAmount), 100.0))
      && (r.value.severity == "danger" || r.value.severity == "warning")
    ensures b.limitAmount == 0.0 && r.Some? ==> r.value.percentage == PlusInfinity && r.value.severity == "danger"
  {
    var percentage := Percentage(spent, b.limitAmount);
    if AtLeast(percentage, 90.0) then
      Some(Alert(b.category, b.period, b.limitAmount, spent, MathRound(percentage),
                 if AtLeast(percentage, 100.0) then "danger" else "warning"))
    else None
  }

  /** The alerts of one budget, measured from `clock`. */
  function AlertsOf(b: Budget, xs: seq<Expense>, clock: Time, cal: Calendar): (r: seq<Alert>)
    requires Plausible(cal)
    ensures |r| <= 1
    ensures forall k :: 0 <= k < |r| ==>
      r[k].category == b.category && r[k].period == b.period && AtLeast(r[k].percentage, 90.0)
  {
    var a := AlertFor(b, Total(Filter(xs, InBudget(b.category, PeriodStart(b.period, clock, cal)))));
    if a.Some? then [a.value] else []
  }

  /** The alerts, each budget's period measured from the time of the request. */
  function Alerts(budgets: seq<Doc<Budget>>, xs: seq<Expense>, now: Time, cal: Calendar): (r: seq<Alert>)
    requires Plausible(cal)
    ensures forall k :: 0 <= k < |r| ==> AtLeast(r[k].percentage, 90.0)
  {
    if budgets == [] then []
    else Alerts(budgets[..|budgets| - 1], xs, now, cal) + AlertsOf(budgets[|budgets| - 1].data, xs, now, cal)
  }

  /** The alerts of a budget do not depend on the budgets listed before it: the alerts of two
      lists are the alerts of each, one after the other, and there is at most one per budget. */
  lemma {:induction false} AlertsConcat(a: seq<Doc<Budget>>, b: seq<Doc<Budget>>, xs: seq<Expense>,
                                        now: Time, cal: Calendar)
    requires Plausible(cal)
    ensures Alerts(a + b, xs, now, cal) == Alerts(a, xs, now, cal) + Alerts(b, xs, now, cal)
    decreases |b|
  {
    if b == [] {
      assert a + b == a;
    } else {
      var init := b[..|b| - 1];
      assert (a + b)[..|a + b| - 1] == a + init;
      AlertsConcat(a, init, xs, now, cal);
    }
  }

  /** At most one alert per budget. */
  lemma {:induction false} AlertsBound(budgets: seq<Doc<Budget>>, xs: seq<Expense>, now: Time, cal: Calendar)
    requires Plausible(cal)
    ensures |Alerts(budgets, xs, now, cal)| <= |budgets|
    decreases |budgets|
  {
    if budgets != [] {
      AlertsBound(budgets[..|budgets| - 1], xs, now, cal);
    }
  }

  /** The `forEach` callback for one budget, its period measured from the time of the request. */
  method CheckOne(budget: Budget, xs: seq<Expense>, now: Time, cal: Calendar) returns (found: seq<Alert>)
    requires Plausible(cal)
    ensures found == AlertsOf(budget, xs, now, cal)
  {
    var periodStart := PeriodStart(budget.period, now, cal);
    var totalSpent := Total(Filter(xs, InBudget(budget.category, periodStart)));
    var percentage := Percentage(totalSpent, budget.limitAmount);
    found := [];
    if AtLeast(percentage, 90.0) {
      found := [Alert(budget.category, budget.period, budget.limitAmount, totalSpent,
                      MathRound(percentage), if AtLeast(percentage, 100.0) then "danger" else "warning")];
    }
  }

  /** The budget check loop, each budget's period measured from the time of the request. */
  method CheckBudgets(budgets: seq<Doc<Budget>>, xs: seq<Expense>, now: Time, cal: Calendar)
    returns (alerts: seq<Alert>)
    requires Plausible(cal)
    ensures alerts == Alerts(budgets, xs, now, cal)
  {
    alerts := [];
    for i := 0 to |budgets|
      invariant alerts == Alerts(budgets[..i], xs, now, cal)
    {
      assert budgets[..i + 1][..i] == budgets[..i];
      var found := CheckOne(budgets[i].data, xs, now, cal);
      alerts := alerts + found;
    }
    assert budgets[..|budgets|] == budgets;
  }

  /** The alerts as the route computes them: a `daily` budget runs `now.setHours(0, 0, 0, 0)` on the
      shared `now`, so every budget after it measures its period from today's midnight. */
  function AlertsAsWritten(budgets: seq<Doc<Budget>>, xs: seq<Expense>, clock: Time, cal: Calendar): (r: seq<Alert>)
    requires Plausible(cal)
    ensures forall k :: 0 <= k < |r| ==> AtLeast(r[k].percentage, 90.0)
  {
    if budgets == [] then []
    else
      var b := budgets[0].data;
      var next := if b.period == "daily" then StartOfDay(clock) else clock;
      AlertsOf(b, xs, clock, cal) + AlertsAsWritten(budgets[1..], xs, next, cal)
  }

  /** One step of the alerts as written: the first budget's alerts from `clock`, then the rest from
      the clock it leaves behind. */
  lemma AsWrittenStep(budgets: seq<Doc<Budget>>, i: nat, xs: seq<Expense>, clock: Time, cal: Calendar)
    requires Plausible(cal) && i < |budgets|
    ensures AlertsAsWritten(budgets[i..], xs, clock, cal)
         == AlertsOf(budgets[i].data, xs, clock, cal)
            + AlertsAsWritten(budgets[i + 1..], xs,
                              if budgets[i].data.period == "daily" then StartOfDay(clock) else clock, cal)
  {
    assert budgets[i..][1..] == budgets[i + 1..];
    assert budgets[i..][0] == budgets[i];
  }

  /** The `forEach` callback as written, for one budget: its alerts measured from the shared clock,
      and the clock it leaves behind (today's midnight after a daily budget). */
  method CheckOneAsWritten(budget: Budget, xs: seq<Expense>, clock: Time, cal: Calendar)
    returns (found: seq<Alert>, next: Time)
    requires Plausible(cal)
    ensures found == AlertsOf(budget, xs, clock, cal)
    ensures next == if budget.period == "daily" then StartOfDay(clock) else clock
  {
    next := clock;
    var periodStart: Option<Time>;
    if budget.period == "daily" {
      next := StartOfDay(next);
      periodStart := Some(next);
    } else if budget.period == "weekly" {
      periodStart := Some(DaysBefore(next, 7));
    } else if budget.period == "monthly" {
      periodStart := Some(StartOfMonth(cal, next));
    } else {
      periodStart := None;
    }
    var totalSpent := Total(Filter(xs, InBudget(budget.category, periodStart)));
    var percentage := Percentage(totalSpent, budget.limitAmount);
    found := [];
    if AtLeast(percentage, 90.0) {
      found := [Alert(budget.category, budget.period, budget.limitAmount, totalSpent,
                      MathRound(percentage), if AtLeast(percentage, 100.0) then "danger" else "warning")];
    }
  }

  /** The budget check loop as written, with the shared `now` that daily budgets move. */
  method CheckBudgetsAsWritten(budgets: seq<Doc<Budget>>, xs: seq<Expense>, now: Time, cal: Calendar)
    returns (alerts: seq<Alert>)
    requires Plausible(cal)
    ensures alerts == AlertsAsWritten(budgets, xs, now, cal)
  {
    alerts := [];
    var clock := now;
    assert budgets[0..] == budgets;
    for i := 0 to |budgets|
      invariant alerts + AlertsAsWritten(budgets[i..], xs, clock, cal) == AlertsAsWritten(budgets, xs, now, cal)
    {
      AsWrittenStep(budgets, i, xs, clock, cal);
      var found;
      found, clock := CheckOneAsWritten(budgets[i].data, xs, clock, cal);
      alerts := alerts + found;
    }
  }

  /** The alerts of one budget over a single expense: the alert for that expense's amount when it
      falls in the budget's period and category, for zero otherwise. */
  lemma OneExpenseAlerts(b: Budget, e: Expense, clock: Time, cal: Calendar)
    requires Plausible(cal)
    ensures var counted := InBudget(b.category, PeriodStart(b.period, clock, cal))(e);
      var a := AlertFor(b, if counted then e.amount else 0.0);
      AlertsOf(b, [e], clock, cal) == if a.Some? then [a.value] else []
  {
    var p := InBudget(b.category, PeriodStart(b.period, clock, cal));
    FilterOne(e, p);
    assert Total([e]) == Total([]) + e.amount;
  }

  /** The two budgets and the expense of the example below, at noon on day 10. */
  const DailyRent := Doc(0, Budget("Rent", 1000.0, "daily", 0))
  const WeeklyFood := Doc(1, Budget("Food", 100.0, "weekly", 0))
  const FoodOnDay3 := Expense(100.0, Cash, "Food", "", 3 * MsPerDay, 3 * MsPerDay)
  const NoonDay10 := 10 * MsPerDay + MsPerDay / 2

  /** Seen from the time of the request, the day-3 expense is outside the weekly window. */
  lemma WeeklyFromNow()
    ensures AlertsOf(WeeklyFood.data, [FoodOnDay3], NoonDay10, ThirtyDayCalendar()) == []
  {
    OneExpenseAlerts(WeeklyFood.data, FoodOnDay3, NoonDay10, ThirtyDayCalendar());
  }

  /** Seen from today's midnight, the day-3 expense is inside the weekly window and fills the budget. */
  lemma WeeklyFromMidnight()
    ensures AlertsOf(WeeklyFood.data, [FoodOnDay3], StartOfDay(NoonDay10), ThirtyDayCalendar())
         == [Alert("Food", "weekly", 100.0, 100.0, Finite(100.0), "danger")]
  {
    assert StartOfDay(NoonDay10) == 10 * MsPerDay;
    OneExpenseAlerts(WeeklyFood.data, FoodOnDay3, StartOfDay(NoonDay10), ThirtyDayCalendar());
  }

  /** The daily rent budget raises no alert. */
  lemma DailyQuiet()
    ensures AlertsOf(DailyRent.data, [FoodOnDay3], NoonDay10, ThirtyDayCalendar()) == []
  {
    OneExpenseAlerts(DailyRent.data, FoodOnDay3, NoonDay10, ThirtyDayCalendar());
  }

  /** As written, a weekly budget's alert depends on whether a daily budget precedes it: at noon on
      day 10, a food expense from the start of day 3 counts against the weekly food budget only
      when a daily budget comes first, and then raises a `danger` alert the request-time window
      does not. */
  lemma WeeklyWindowMovedByDailyBudget()
    ensures
      var cal, now, xs := ThirtyDayCalendar(), NoonDay10, [FoodOnDay3];
      && AlertsAsWritten([WeeklyFood], xs, now, cal) == []
      && AlertsAsWritten([DailyRent, WeeklyFood], xs, now, cal) == [Alert("Food", "weekly", 100.0, 100.0, Finite(100.0), "danger")]
      && Alerts([DailyRent, WeeklyFood], xs, now, cal) == []
  {
    var cal, now, xs := ThirtyDayCalendar(), NoonDay10, [FoodOnDay3];
    WeeklyFromNow();
    WeeklyFromMidnight();
    DailyQuiet();
    assert [DailyRent, WeeklyFood][1..] == [WeeklyFood];
    assert [WeeklyFood][1..] == [];
    assert AlertsAsWritten([WeeklyFood], xs, StartOfDay(now), cal)
        == AlertsOf(WeeklyFood.data, xs, StartOfDay(now), cal) + AlertsAsWritten([], xs, StartOfDay(now), cal);
    assert AlertsAsWritten([DailyRent, WeeklyFood], xs, now, cal)
        == AlertsOf(DailyRent.data, xs, now, cal) + AlertsAsWritten([WeeklyFood], xs, StartOfDay(now), cal);
    assert [DailyRent, WeeklyFood][..1] == [DailyRent];
    assert [DailyRent][..0] == [];
    assert Alerts([DailyRent], xs, now, cal) == Alerts([], xs, now, cal) + AlertsOf(DailyRent.data, xs, now, cal);
    assert Alerts([DailyRent, WeeklyFood], xs, now, cal)
        == Alerts([DailyRent], xs, now, cal) + AlertsOf(WeeklyFood.data, xs, now, cal);
  }
}
