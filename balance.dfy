/** The balance routes: read the `balance/current` document with a zero default, and overwrite it. */
module Balances {
  import opened Wrappers
  import opened Clock
  import opened Ledger

  /** The body of `GET /api/balance`: the stored document, or both amounts 0 and no timestamp. */
  datatype Reply = Reply(cashAmount: real, onlineAmount: real, updatedAt: Option<Time>)

  /** `GET /api/balance`. */
  function Get(b: Option<Balance>): (r: Reply)
    ensures b.None? ==> r == Reply(0.0, 0.0, None)
    ensures b.Some? ==>
      r.cashAmount == b.value.cashAmount && r.onlineAmount == b.value.onlineAmount
      && r.updatedAt == Some(b.value.updatedAt)
  {
    match b
    case None => Reply(0.0, 0.0, None)
    case Some(current) => Reply(current.cashAmount, current.onlineAmount, Some(current.updatedAt))
  }

  /** `POST /api/balance`: both fields must be present (0 is accepted); the document is then replaced
      as a whole, so the new state does not depend on the old one. */
  method Set(st: Store, cashAmount: Option<real>, onlineAmount: Option<real>, now: Time)
    returns (r: Result<Balance, Error>)
    requires st.Valid()
    modifies st
    ensures st.Valid()
    ensures cashAmount.None? || onlineAmount.None? ==>
      r == Err(BadRequest("Both cashAmount and onlineAmount are required")) && unchanged(st)
    ensures cashAmount.Some? && onlineAmount.Some? ==>
      && r.Ok? && st.balance == Some(r.value)
      && Get(st.balance) == Reply(cashAmount.value, onlineAmount.value, Some(now))
      && st.expenses == old(st.expenses) && st.budgets == old(st.budgets)
      && st.templates == old(st.templates) && st.nextId == old(st.nextId)
  {
    if cashAmount.None? || onlineAmount.None? {
      return Err(BadRequest("Both cashAmount and onlineAmount are required"));
    }
    var data := Balance(cashAmount.value, onlineAmount.value, now);
    st.balance := Some(data);
    r := Ok(data);
  }

  /** Setting the same amounts twice leaves the same amounts as setting them once. */
  method SetTwice(st: Store, cashAmount: real, onlineAmount: real, now: Time, later: Time)
    returns (first: Result<Balance, Error>, second: Result<Balance, Error>)
    requires st.Valid()
    modifies st
    ensures st.Valid()
    ensures first.Ok? && second.Ok?
    ensures Amounts(Some(first.value)) == Amounts(Some(second.value)) == Amounts(st.balance)
    ensures Amounts(st.balance) == Some((cashAmount, onlineAmount))
  {
    first := Set(st, Some(cashAmount), Some(onlineAmount), now);
    second := Set(st, Some(cashAmount), Some(onlineAmount), later);
  }

  /** Reading a debited balance: an expense moves exactly one of the two amounts `GET` reports, and
      with no balance document `GET` still reports zero. */
  lemma GetAfterDebit(b: Option<Balance>, kind: string, amount: real, at: Time)
    ensures b.None? ==> Get(Debit(b, kind, amount, at)) == Reply(0.0, 0.0, None)
    ensures b.Some? ==>
      var before, after := Get(b), Get(Debit(b, kind, amount, at));
      && after.cashAmount + after.onlineAmount == before.cashAmount + before.onlineAmount - amount
      && (IsCash(kind) ==> after.onlineAmount == before.onlineAmount)
      && (!IsCash(kind) ==> after.cashAmount == before.cashAmount)
  {
  }
}
