/** The per-user ledger documents and an in-memory stand-in for the document store that holds them. */
module Ledger {
  import opened Wrappers
  import opened Clock

  /** A document id, as the store assigns them on `add`. */
  type Id = nat

  const Cash: string := "cash"
  const Online: string := "online"

  /** The balance field an expense of this `type` books against: `cashAmount` for `"cash"`,
      `onlineAmount` for anything else. */
  predicate IsCash(kind: string)
  {
    kind == Cash
  }

  /** An expense document. `kind` is the document's `type` field. */
  datatype Expense = Expense(
    amount: real, kind: string, category: string, description: string, date: Time, createdAt: Time)

  /** The singleton balance document `balance/current`. */
  datatype Balance = Balance(cashAmount: real, onlineAmount: real, updatedAt: Time)

  /** A budget document. */
  datatype Budget = Budget(category: string, limitAmount: real, period: string, updatedAt: Time)

  /** A recurring-expense template document; `nextDue` may be missing on a document the routes did not write. */
  datatype Template = Template(
    amount: real, kind: string, category: string, description: string, frequency: string,
    nextDue: Option<Time>, active: bool, createdAt: Time)

  /** A document of a query snapshot: `{ id: doc.id, ...doc.data() }`. */
  datatype Doc<T> = Doc(id: Id, data: T)

  /** The error responses: status 400 or 404 with the route's message. */
  datatype Error = BadRequest(message: string) | NotFound(message: string)

  /** A numeric field of a request body as it arrives: missing (absent, `null` or `""`), a JSON
      number, or a non-empty string that `Number()` reads as `value`, which is what the app's own
      forms send. */
  datatype NumberField = Missing | JsonNumber(value: real) | NumericString(value: real)

  /** JavaScript truthiness of such a field: a missing field and the number zero are falsy; every
      non-empty string, `"0"` included, is truthy. */
  predicate Truthy(f: NumberField)
  {
    f.NumericString? || (f.JsonNumber? && f.value != 0.0)
  }

  /** Subtracts `amount` from the balance field matching `kind`, if a balance document exists. */
  function Debit(b: Option<Balance>, kind: string, amount: real, at: Time): (r: Option<Balance>)
    ensures b.None? <==> r.None?
    ensures b.Some? && IsCash(kind) ==>
      r.value.cashAmount == b.value.cashAmount - amount && r.value.onlineAmount == b.value.onlineAmount
    ensures b.Some? && !IsCash(kind) ==>
      r.value.onlineAmount == b.value.onlineAmount - amount && r.value.cashAmount == b.value.cashAmount
    ensures b.Some? ==> r.value.updatedAt == at
  {
    match b
    case None => None
    case Some(current) =>
      if IsCash(kind) then Some(Balance(current.cashAmount - amount, current.onlineAmount, at))
      else Some(Balance(current.cashAmount, current.onlineAmount - amount, at))
  }

  /** Adds `amount` back to the balance field matching `kind`, if a balance document exists. */
  function Credit(b: Option<Balance>, kind: string, amount: real, at: Time): (r: Option<Balance>)
    ensures b.None? <==> r.None?
    ensures b.Some? && IsCash(kind) ==>
      r.value.cashAmount == b.value.cashAmount + amount && r.value.onlineAmount == b.value.onlineAmount
    ensures b.Some? && !IsCash(kind) ==>
      r.value.onlineAmount == b.value.onlineAmount + amount && r.value.cashAmount == b.value.cashAmount
    ensures b.Some? ==> r.value.updatedAt == at
  {
    Debit(b, kind, -amount, at)
  }

  /** The two balance amounts, ignoring the `updatedAt` stamp. */
  function Amounts(b: Option<Balance>): (r: Option<(real, real)>)
    ensures b.None? <==> r.None?
    ensures b.Some? ==> r.value == (b.value.cashAmount, b.value.onlineAmount)
  {
    if b.None? then None else Some((b.value.cashAmount, b.value.onlineAmount))
  }

  /** A refund undoes a debit of the same type and amount. */
  lemma CreditUndoesDebit(b: Option<Balance>, kind: string, amount: real, at1: Time, at2: Time)
    ensures Amounts(Credit(Debit(b, kind, amount, at1), kind, amount, at2)) == Amounts(b)
  {
  }

  /** `xs.reduce((sum, e) => sum + e.amount, 0)`. */
  function Total(xs: seq<Expense>): (r: real)
    ensures (forall i :: 0 <= i < |xs| ==> xs[i].amount >= 0.0) ==> r >= 0.0
    ensures |xs| == 1 ==> r == xs[0].amount
  {
    if xs == [] then 0.0 else Total(xs[..|xs| - 1]) + xs[|xs| - 1].amount
  }

  /** The ids of a snapshot. */
  function IdsOf<T>(docs: seq<Doc<T>>): set<Id>
  {
    set k | 0 <= k < |docs| :: docs[k].id
  }

  /** Appending a document adds its id. */
  lemma IdsOfAppend<T>(docs: seq<Doc<T>>, d: Doc<T>)
    ensures IdsOf(docs + [d]) == IdsOf(docs) + {d.id}
  {
    var ext := docs + [d];
    assert ext[|docs|].id == d.id;
    forall id | id in IdsOf(docs) ensures id in IdsOf(ext) {
      var k :| 0 <= k < |docs| && docs[k].id == id;
      assert ext[k].id == id;
    }
  }

  /** A snapshot has no ids exactly when it has no documents. */
  lemma IdsOfEmpty<T>(docs: seq<Doc<T>>)
    ensures IdsOf(docs) == {} <==> docs == []
  {
    if docs != [] {
      assert docs[0].id in IdsOf(docs);
    }
  }

  /** No id occurs twice in a snapshot. */
  ghost predicate DistinctIds<T>(docs: seq<Doc<T>>)
  {
    forall i, j :: 0 <= i < j < |docs| ==> docs[i].id != docs[j].id
  }

  /** `docs` lists every document of collection `m` exactly once, with its data. */
  ghost predicate IsSnapshot<T>(docs: seq<Doc<T>>, m: map<Id, T>)
  {
    && (forall k :: 0 <= k < |docs| ==> docs[k].id in m && docs[k].data == m[docs[k].id])
    && IdsOf(docs) == m.Keys
    && DistinctIds(docs)
  }

  /** `collection.get()`: the documents of `m`, in an order the store chooses. */
  method Snapshot<T>(m: map<Id, T>) returns (docs: seq<Doc<T>>)
    ensures IsSnapshot(docs, m)
  {
    docs := [];
    var rest := m.Keys;
    while rest != {}
      invariant rest <= m.Keys
      invariant forall k :: 0 <= k < |docs| ==> docs[k].id in m && docs[k].data == m[docs[k].id]
      invariant IdsOf(docs) == m.Keys - rest
      invariant DistinctIds(docs)
      decreases rest
    {
      var id :| id in rest;
      assert forall k :: 0 <= k < |docs| ==> docs[k].id in IdsOf(docs);
      IdsOfAppend(docs, Doc(id, m[id]));
      docs := docs + [Doc(id, m[id])];
      rest := rest - {id};
    }
  }

  /** One user's documents: the `expenses`, `budgets` and `recurring` collections as maps from id to
      data, and the optional `balance/current` document. `nextId` stands for the store's id allocator. */
  class Store {
    var expenses: map<Id, Expense>
    var balance: Option<Balance>
    var budgets: map<Id, Budget>
    var templates: map<Id, Template>
    var nextId: Id

    /** Every id in use was allocated. */
    ghost predicate Valid()
      reads this
    {
      && (forall id :: id in expenses ==> id < nextId)
      && (forall id :: id in templates ==> id < nextId)
      && (forall id :: id in budgets ==> id < nextId)
    }

    /** A user with no documents yet. */
    constructor ()
      ensures Valid()
      ensures expenses == map[] && balance == None && budgets == map[] && templates == map[]
    {
      expenses, balance, budgets, templates, nextId := map[], None, map[], map[], 0;
    }

    /** Allocates an id that no document of any collection uses. */
    method NewId() returns (id: Id)
      requires Valid()
      modifies this`nextId
      ensures id == old(nextId) && nextId == id + 1
      ensures id !in expenses && id !in budgets && id !in templates
      ensures Valid()
    {
      id := nextId;
      nextId := nextId + 1;
    }
  }
}
