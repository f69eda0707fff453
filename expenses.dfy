/** The expense routes: add, list, edit and delete, each keeping the balance document in step. */
module Expenses {
  import opened Wrappers
  import opened Clock
  import opened Text
  import opened Seqs
  import opened Ledger

  const MaxAmount: real := 10000.0

  /** The body of `POST /api/expense`; an empty string stands for an absent or empty field. */
  datatype NewExpense = NewExpense(
    amount: NumberField, kind: string, category: string, description: string, date: Option<Time>)

  /** The body of `PUT /api/expense/:id`. */
  datatype Revision = Revision(
    amount: real, kind: string, category: string, description: string, date: Option<Time>)

  /** The query of `GET /api/expenses`; an empty string or `None` means the filter is not given. */
  datatype Query = Query(search: string, category: string, startDate: Option<Time>, endDate: Option<Time>)

  /** The amount bound checks shared by add and edit, in the order they run. */
  function AmountError(amount: real): (r: Option<Error>)
    ensures r.None? <==> 0.0 <= amount <= MaxAmount
    ensures amount < 0.0 ==> r == Some(BadRequest("Amount cannot be negative"))
    ensures amount > MaxAmount ==> r == Some(BadRequest("Amount cannot exceed 10,000"))
  {
    if amount < 0.0 then Some(BadRequest("Amount cannot be negative"))
    else if amount > MaxAmount then Some(BadRequest("Amount cannot exceed 10,000"))
    else None
  }

  /** Validation and normalisation of a new expense: the stored document or the 400 response. */
  function ValidateNew(req: NewExpense, now: Time): (r: Result<Expense, Error>)
    ensures r.Ok? <==>
      Truthy(req.amount) && req.kind != "" && req.category != ""
      && 0.0 <= req.amount.value <= MaxAmount && (req.kind == Cash || req.kind == Online)
    ensures !Truthy(req.amount) || req.kind == "" || req.category == "" ==>
      r == Err(BadRequest("Amount, type, and category are required"))
    ensures Truthy(req.amount) && req.kind != "" && req.category != "" && AmountError(req.amount.value).Some? ==>
      r == Err(AmountError(req.amount.value).value)
    ensures Truthy(req.amount) && req.kind != "" && req.category != "" && AmountError(req.amount.value).None?
            && req.kind != Cash && req.kind != Online ==>
      r == Err(BadRequest("Type must be cash or online"))
    ensures r.Ok? ==>
      && r.value.amount == req.amount.value && r.value.kind == req.kind
      && r.value.category == req.category && r.value.description == req.description
      && r.value.date == (if req.date.Some? then req.date.value else now)
      && r.value.createdAt == now
  {
    if !Truthy(req.amount) || req.kind == "" || req.category == "" then
      Err(BadRequest("Amount, type, and category are required"))
    else if AmountError(req.amount.value).Some? then
      Err(AmountError(req.amount.value).value)
    else if req.kind != Cash && req.kind != Online then
      Err(BadRequest("Type must be cash or online"))
    else
      Ok(Expense(req.amount.value, req.kind, req.category, req.description,
                 if req.date.Some? then req.date.value else now, now))
  }

  /** `!amount` tests the raw field: the number 0 is refused as missing, while the string `"0"` a
      form sends passes the bound checks and is stored as the amount 0. */
  lemma ZeroAmount(now: Time)
    ensures ValidateNew(NewExpense(JsonNumber(0.0), Cash, "Food", "", None), now)
         == Err(BadRequest("Amount, type, and category are required"))
    ensures ValidateNew(NewExpense(NumericString(0.0), Cash, "Food", "", None), now)
         == Ok(Expense(0.0, Cash, "Food", "", now, now))
  {
  }

  /** The document an edit writes: the new fields, the old date when none is given, the old `createdAt`. */
  function Revised(old_: Expense, req: Revision): (r: Expense)
    ensures r.createdAt == old_.createdAt
    ensures req.date.None? ==> r.date == old_.date
    ensures req.date.Some? ==> r.date == req.date.value
    ensures r.amount == req.amount && r.kind == req.kind && r.category == req.category
    ensures r.description == req.description
  {
    Expense(req.amount, req.kind, req.category, req.description,
            if req.date.Some? then req.date.value else old_.date, old_.createdAt)
  }

  /** `POST /api/expense`: stores the expense, then debits the matching balance field. */
  method Add(st: Store, req: NewExpense, now: Time) returns (r: Result<Id, Error>)
    requires st.Valid()
    modifies st
    ensures st.Valid()
    ensures ValidateNew(req, now).Err? ==> r == Err(ValidateNew(req, now).error) && unchanged(st)
    ensures ValidateNew(req, now).Ok? ==>
      && r == Ok(old(st.nextId)) && r.value !in old(st.expenses) && st.nextId == old(st.nextId) + 1
      && st.expenses == old(st.expenses)[r.value := ValidateNew(req, now).value]
      && st.balance == Debit(old(st.balance), req.kind, req.amount.value, now)
      && st.budgets == old(st.budgets) && st.templates == old(st.templates)
  {
    var v := ValidateNew(req, now);
    if v.Err? {
      return Err(v.error);
    }
    var expense := v.value;
    var id := st.NewId();
    st.expenses := st.expenses[id := expense];
    if st.balance.Some? {
      var current := st.balance.value;
      if expense.kind == Cash {
        st.balance := Some(current.(cashAmount := current.cashAmount - expense.amount, updatedAt := now));
      } else {
        st.balance := Some(current.(onlineAmount := current.onlineAmount - expense.amount, updatedAt := now));
      }
    }
    r := Ok(id);
  }

  /** The store-side filters of the list query (`where` on category and date). */
  predicate InRange(e: Expense, q: Query): (r: bool)
    ensures q.category == "" && q.startDate.None? && q.endDate.None? ==> r
    ensures r && q.category != "" ==> e.category == q.category
    ensures r && q.startDate.Some? ==> e.date >= q.startDate.value
    ensures r && q.endDate.Some? ==> e.date <= q.endDate.value
  {
    && (q.category == "" || e.category == q.category)
    && (q.startDate.None? || e.date >= q.startDate.value)
    && (q.endDate.None? || e.date <= q.endDate.value)
  }

  /** The in-route search filter: the lower-cased description contains the lower-cased term. */
  predicate MatchesSearch(e: Expense, q: Query): (r: bool)
    ensures r <==> q.search == "" || exists i :: OccursAt(Lower(e.description), Lower(q.search), i)
    ensures |q.search| > |e.description| ==> (r <==> q.search == "")
  {
    IncludesIffOccurs(Lower(e.description), Lower(q.search));
    q.search == "" || Includes(Lower(e.description), Lower(q.search))
  }

  /** The list query's predicates on documents, named once so every use denotes the same function. */
  function StoreFilter(q: Query): Doc<Expense> -> bool
  {
    (d: Doc<Expense>) => InRange(d.data, q)
  }

  function SearchFilter(q: Query): Doc<Expense> -> bool
  {
    (d: Doc<Expense>) => Includes(Lower(d.data.description), Lower(q.search))
  }

  function Listed(q: Query): Doc<Expense> -> bool
  {
    (d: Doc<Expense>) => InRange(d.data, q) && MatchesSearch(d.data, q)
  }

  /** Newest first: `orderBy('date', 'desc')` as an ascending sort on the negated date. */
  function NewestFirst(d: Doc<Expense>): int
  {
    -d.data.date
  }

  /** `GET /api/expenses` over the collection's documents `docs`: the store's filters and
      `orderBy('date', 'desc')`, then the search filter. */
  function List(docs: seq<Doc<Expense>>, q: Query): (r: seq<Doc<Expense>>)
    ensures forall d :: d in r ==> d in docs && InRange(d.data, q) && MatchesSearch(d.data, q)
    ensures forall i, j :: 0 <= i < j < |r| ==> r[i].data.date >= r[j].data.date
    ensures multiset(r) == multiset(Filter(docs, Listed(q)))
  {
    var ordered := SortBy(Filter(docs, StoreFilter(q)), NewestFirst);
    var r := if q.search == "" then ordered else Filter(ordered, SearchFilter(q));
    ListFacts(docs, q, r);
    r
  }

  /** The documents a list query returns, ordered newest first. */
  lemma ListFacts(docs: seq<Doc<Expense>>, q: Query, r: seq<Doc<Expense>>)
    requires r == (var ordered := SortBy(Filter(docs, StoreFilter(q)), NewestFirst);
                   if q.search == "" then ordered else Filter(ordered, SearchFilter(q)))
    ensures forall d :: d in r ==> d in docs && InRange(d.data, q) && MatchesSearch(d.data, q)
    ensures forall i, j :: 0 <= i < j < |r| ==> r[i].data.date >= r[j].data.date
    ensures multiset(r) == multiset(Filter(docs, Listed(q)))
  {
    var selected := Filter(docs, StoreFilter(q));
    var ordered := SortBy(selected, NewestFirst);
    if q.search == "" {
      FilterSame(docs, StoreFilter(q), Listed(q));
      PermutationSameElements(ordered, selected);
    } else {
      ListSearchFacts(docs, q, selected, ordered, r);
    }
  }

  lemma ListSearchFacts(docs: seq<Doc<Expense>>, q: Query, selected: seq<Doc<Expense>>,
                        ordered: seq<Doc<Expense>>, r: seq<Doc<Expense>>)
    requires selected == Filter(docs, StoreFilter(q))
    requires ordered == SortBy(selected, NewestFirst)
    requires q.search != "" && r == Filter(ordered, SearchFilter(q))
    ensures forall d :: d in r ==> d in docs && InRange(d.data, q) && MatchesSearch(d.data, q)
    ensures forall i, j :: 0 <= i < j < |r| ==> r[i].data.date >= r[j].data.date
    ensures multiset(r) == multiset(Filter(docs, Listed(q)))
  {
    FilterSorted(ordered, SearchFilter(q), NewestFirst);
    SearchPermutation(docs, q, selected, ordered, r);
    PermutationSameElements(r, Filter(docs, Listed(q)));
  }

  lemma SearchPermutation(docs: seq<Doc<Expense>>, q: Query, selected: seq<Doc<Expense>>,
                          ordered: seq<Doc<Expense>>, r: seq<Doc<Expense>>)
    requires selected == Filter(docs, StoreFilter(q))
    requires multiset(ordered) == multiset(selected)
    requires q.search != "" && r == Filter(ordered, SearchFilter(q))
    ensures multiset(r) == multiset(Filter(docs, Listed(q)))
  {
    var search := SearchFilter(q);
    FilterPermutation(ordered, selected, search);
    assert multiset(r) == multiset(Filter(selected, search));
    FilterFilter(docs, StoreFilter(q), search, Listed(q));
  }

  /** `PUT /api/expense/:id`: 404 for an unknown id, 400 for an amount out of bounds; otherwise the
      document is replaced and the balance gets the old amount back and the new amount taken off. */
  method Edit(st: Store, id: Id, req: Revision, now: Time) returns (r: Result<Expense, Error>)
    requires st.Valid()
    modifies st
    ensures st.Valid()
    ensures id !in old(st.expenses) ==> r == Err(NotFound("Expense not found")) && unchanged(st)
    ensures id in old(st.expenses) && AmountError(req.amount).Some? ==>
      r == Err(AmountError(req.amount).value) && unchanged(st)
    ensures id in old(st.expenses) && AmountError(req.amount).None? ==>
      && r == Ok(Revised(old(st.expenses)[id], req))
      && st.expenses == old(st.expenses)[id := r.value]
      && st.balance == Debit(Credit(old(st.balance), old(st.expenses)[id].kind, old(st.expenses)[id].amount, now),
                             req.kind, req.amount, now)
      && st.budgets == old(st.budgets) && st.templates == old(st.templates) && st.nextId == old(st.nextId)
  {
    if id !in st.expenses {
      return Err(NotFound("Expense not found"));
    }
    var previous := st.expenses[id];
    var bounds := AmountError(req.amount);
    if bounds.Some? {
      return Err(bounds.value);
    }
    var updated := Revised(previous, req);
    st.expenses := st.expenses[id := updated];
    if st.balance.Some? {
      var current := st.balance.value;
      var newCash := current.cashAmount;
      var newOnline := current.onlineAmount;
      if previous.kind == Cash {
        newCash := newCash + previous.amount;
      } else {
        newOnline := newOnline + previous.amount;
      }
      if req.kind == Cash {
        newCash := newCash - req.amount;
      } else {
        newOnline := newOnline - req.amount;
      }
      st.balance := Some(Balance(newCash, newOnline, now));
    }
    r := Ok(updated);
  }

  /** An edit that keeps the type and the amount leaves both balance amounts as they were. */
  lemma SameEditKeepsBalance(b: Option<Balance>, kind: string, amount: real, at: Time)
    ensures Amounts(Debit(Credit(b, kind, amount, at), kind, amount, at)) == Amounts(b)
  {
  }

  /** `DELETE /api/expense/:id`: 404 for an unknown id; otherwise the document is removed and its
      amount refunded to the matching balance field. */
  method Delete(st: Store, id: Id, now: Time) returns (r: Result<(), Error>)
    requires st.Valid()
    modifies st
    ensures st.Valid()
    ensures id !in old(st.expenses) ==> r == Err(NotFound("Expense not found")) && unchanged(st)
    ensures id in old(st.expenses) ==>
      && r == Ok(())
      && st.expenses == old(st.expenses) - {id}
      && st.balance == Credit(old(st.balance), old(st.expenses)[id].kind, old(st.expenses)[id].amount, now)
      && st.budgets == old(st.budgets) && st.templates == old(st.templates) && st.nextId == old(st.nextId)
  {
    if id !in st.expenses {
      return Err(NotFound("Expense not found"));
    }
    var expense := st.expenses[id];
    st.expenses := st.expenses - {id};
    if st.balance.Some? {
      var current := st.balance.value;
      if expense.kind == Cash {
        st.balance := Some(current.(cashAmount := current.cashAmount + expense.amount, updatedAt := now));
      } else {
        st.balance := Some(current.(onlineAmount := current.onlineAmount + expense.amount, updatedAt := now));
      }
    }
    r := Ok(());
  }

  /** Adding an expense and then deleting it restores the collection and both balance amounts. */
  method AddThenDelete(st: Store, req: NewExpense, now: Time, later: Time) returns (r: Result<Id, Error>)
    requires st.Valid()
    modifies st
    ensures st.Valid()
    ensures r.Ok? <==> ValidateNew(req, now).Ok?
    ensures st.expenses == old(st.expenses)
    ensures Amounts(st.balance) == Amounts(old(st.balance))
  {
    r := Add(st, req, now);
    if r.Ok? {
      var gone := Delete(st, r.value, later);
      assert st.expenses == old(st.expenses);
    }
  }
}
