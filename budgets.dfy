/** The budget routes: an upsert keyed on the pair (category, period), and delete by id. */
module Budgets {
  import opened Wrappers
  import opened Clock
  import opened Seqs
  import opened Ledger

  /** The body of `POST /api/budgets`; an empty string stands for an absent or empty field. */
  datatype BudgetRequest = BudgetRequest(category: string, limitAmount: NumberField, period: string)

  /** The success response: `Budget created` or `Budget updated`, the document id and the data written. */
  datatype Saved = Saved(message: string, id: Id, budget: Budget)

  predicate IsPeriod(p: string)
  {
    p == "daily" || p == "weekly" || p == "monthly"
  }

  /** Validation of an upsert request: the budget data to write or the 400 response. */
  function ValidateBudget(req: BudgetRequest, now: Time): (r: Result<Budget, Error>)
    ensures r.Ok? <==> req.category != "" && Truthy(req.limitAmount) && IsPeriod(req.period)
    ensures (req.category == "" || !Truthy(req.limitAmount) || req.period == "")
            ==> r == Err(BadRequest("Category, limitAmount, and period are required"))
    ensures (req.category != "" && Truthy(req.limitAmount) && req.period != "" && !IsPeriod(req.period))
            ==> r == Err(BadRequest("Period must be daily, weekly, or monthly"))
    ensures r.Ok? ==>
      && r.value.category == req.category && r.value.period == req.period
      && r.value.limitAmount == req.limitAmount.value
      && r.value.updatedAt == now
  {
    if req.category == "" || !Truthy(req.limitAmount) || req.period == "" then
      Err(BadRequest("Category, limitAmount, and period are required"))
    else if !IsPeriod(req.period) then
      Err(BadRequest("Period must be daily, weekly, or monthly"))
    else
      Ok(Budget(req.category, req.limitAmount.value, req.period, now))
  }

  /** `!limitAmount` tests the raw field: the number 0 is refused as missing, while the string `"0"`
      the budget form sends passes and is stored as a zero limit. */
  lemma ZeroLimit(now: Time)
    ensures ValidateBudget(BudgetRequest("Food", JsonNumber(0.0), "weekly"), now)
         == Err(BadRequest("Category, limitAmount, and period are required"))
    ensures ValidateBudget(BudgetRequest("Food", NumericString(0.0), "weekly"), now)
         == Ok(Budget("Food", 0.0, "weekly", now))
  {
  }

  /** The query `where('category', '==', category).where('period', '==', period)` on documents. */
  function KeyFilter(category: string, period: string): Doc<Budget> -> bool
  {
    (d: Doc<Budget>) => d.data.category == category && d.data.period == period
  }

  /** The ids of the budgets stored under the pair (category, period). */
  function MatchIds(m: map<Id, Budget>, category: string, period: string): set<Id>
  {
    set id | id in m && m[id].category == category && m[id].period == period
  }

  /** No two budgets share a (category, period) pair. */
  ghost predicate UniquePairs(m: map<Id, Budget>)
  {
    forall i, j :: i in m && j in m && m[i].category == m[j].category && m[i].period == m[j].period ==> i == j
  }

  /** Under unique pairs, a pair names at most one budget. */
  lemma AtMostOneMatch(m: map<Id, Budget>, category: string, period: string, id: Id)
    requires UniquePairs(m) && id in MatchIds(m, category, period)
    ensures MatchIds(m, category, period) == {id}
  {
  }

  /** Writing `b` under an id that no other budget with `b`'s pair uses keeps the pairs unique. */
  lemma WriteKeepsUnique(m: map<Id, Budget>, id: Id, b: Budget)
    requires UniquePairs(m)
    requires id in MatchIds(m, b.category, b.period) || MatchIds(m, b.category, b.period) == {}
    ensures UniquePairs(m[id := b])
    ensures MatchIds(m[id := b], b.category, b.period) == {id}
  {
    var m' := m[id := b];
    if id in MatchIds(m, b.category, b.period) {
      AtMostOneMatch(m, b.category, b.period, id);
    }
    forall j | j in m && j != id
      ensures m[j].category != b.category || m[j].period != b.period
    {
      assert j !in MatchIds(m, b.category, b.period);
    }
    forall i, j | i in m' && j in m' && m'[i].category == m'[j].category && m'[i].period == m'[j].period
      ensures i == j
    {
      if i != id && j != id {
        assert m'[i] == m[i] && m'[j] == m[j];
      }
    }
  }

  /** Every snapshot document with the pair is among the documents the query returns, so an empty
      query result means no stored budget has the pair. */
  lemma NoMatchInSnapshot(docs: seq<Doc<Budget>>, m: map<Id, Budget>, category: string, period: string)
    requires IsSnapshot(docs, m)
    requires Filter(docs, KeyFilter(category, period)) == []
    ensures MatchIds(m, category, period) == {}
  {
    forall id | id in MatchIds(m, category, period) ensures false {
      assert id in IdsOf(docs);
      var k :| 0 <= k < |docs| && docs[k].id == id;
      FilterCount(docs, KeyFilter(category, period), docs[k]);
    }
  }

  /** `POST /api/budgets`: validates, then queries the budgets with the same category and period;
      the first match is overwritten in place, otherwise a new budget is added. */
  method Upsert(st: Store, req: BudgetRequest, now: Time) returns (r: Result<Saved, Error>)
    requires st.Valid()
    modifies st
    ensures st.Valid()
    ensures ValidateBudget(req, now).Err? ==> r == Err(ValidateBudget(req, now).error) && unchanged(st)
    ensures ValidateBudget(req, now).Ok? ==>
      var b := ValidateBudget(req, now).value;
      && r.Ok? && r.value.budget == b
      && st.budgets == old(st.budgets)[r.value.id := b]
      && (MatchIds(old(st.budgets), b.category, b.period) == {} ==>
            && r.value.message == "Budget created" && r.value.id == old(st.nextId) && r.value.id !in old(st.budgets)
            && st.nextId == old(st.nextId) + 1)
      && (MatchIds(old(st.budgets), b.category, b.period) != {} ==>
            && r.value.message == "Budget updated" && r.value.id in MatchIds(old(st.budgets), b.category, b.period)
            && st.nextId == old(st.nextId))
      && (UniquePairs(old(st.budgets)) ==> UniquePairs(st.budgets))
      && st.expenses == old(st.expenses) && st.balance == old(st.balance) && st.templates == old(st.templates)
  {
    var v := ValidateBudget(req, now);
    if v.Err? {
      return Err(v.error);
    }
    var b := v.value;
    var existing := FindExisting(st.budgets, b.category, b.period);
    ghost var unique := UniquePairs(st.budgets);
    var id;
    if existing.Some? {
      id := existing.value;
      r := Ok(Saved("Budget updated", id, b));
    } else {
      id := st.NewId();
      r := Ok(Saved("Budget created", id, b));
    }
    if unique {
      WriteKeepsUnique(st.budgets, id, b);
    }
    st.budgets := st.budgets[id := b];
  }

  /** The `where` query of the upsert and its `docs[0]`: the first document, in the store's order,
      whose pair is (category, period). */
  method FindExisting(m: map<Id, Budget>, category: string, period: string) returns (found: Option<Id>)
    ensures found.Some? ==> found.value in MatchIds(m, category, period)
    ensures found.None? <==> MatchIds(m, category, period) == {}
  {
    var docs := Snapshot(m);
    var existing := Filter(docs, KeyFilter(category, period));
    if existing != [] {
      assert existing[0] in docs;
      found := Some(existing[0].id);
    } else {
      NoMatchInSnapshot(docs, m, category, period);
      found := None;
    }
  }

  /** Posting the same budget twice: the second post finds the budget the first one wrote and
      updates it under the same id, so the collection ends as after the first post. */
  method UpsertTwice(st: Store, req: BudgetRequest, now: Time) returns (first: Result<Saved, Error>, second: Result<Saved, Error>)
    requires st.Valid() && UniquePairs(st.budgets)
    modifies st
    ensures st.Valid() && UniquePairs(st.budgets)
    ensures first.Ok? <==> second.Ok?
    ensures first.Ok? ==>
      && second.value.id == first.value.id && second.value.message == "Budget updated"
      && st.budgets == old(st.budgets)[first.value.id := first.value.budget]
  {
    first := Upsert(st, req, now);
    if first.Ok? {
      var b := first.value.budget;
      AtMostOneMatch(st.budgets, b.category, b.period, first.value.id);
    }
    second := Upsert(st, req, now);
  }

  /** `DELETE /api/budgets/:id`: removes that budget; an id that does not exist is not an error. */
  method Delete(st: Store, id: Id)
    requires st.Valid()
    modifies st
    ensures st.Valid()
    ensures st.budgets == old(st.budgets) - {id}
    ensures id !in old(st.budgets) ==> st.budgets == old(st.budgets)
    ensures UniquePairs(old(st.budgets)) ==> UniquePairs(st.budgets)
    ensures st.expenses == old(st.expenses) && st.balance == old(st.balance)
    ensures st.templates == old(st.templates) && st.nextId == old(st.nextId)
  {
    st.budgets := st.budgets - {id};
  }
}
