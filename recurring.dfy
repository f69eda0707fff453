/** The recurring-expense routes: create and delete templates, and apply every template that is due. */
module Recurring {
  import opened Wrappers
  import opened Clock
  import opened Ledger

  /** The body of `POST /api/recurring`; an empty string stands for an absent or empty field. */
  datatype NewTemplate = NewTemplate(
    amount: NumberField, kind: string, category: string, description: string, frequency: string)

  predicate IsFrequency(f: string)
  {
    f == "daily" || f == "weekly" || f == "monthly" || f == "yearly"
  }

  /** One period of `frequency` after `t`; a frequency outside the four known ones leaves `t` as it is. */
  function Advance(cal: Calendar, frequency: string, t: Time): (r: Time)
    requires Plausible(cal)
    ensures IsFrequency(frequency) <==> t < r
    ensures frequency == "daily" ==> r == t + MsPerDay
    ensures frequency == "weekly" ==> r == t + 7 * MsPerDay
    ensures frequency == "monthly" ==> t + 28 * MsPerDay <= r <= t + 31 * MsPerDay
    ensures frequency == "yearly" ==> t + 365 * MsPerDay <= r <= t + 366 * MsPerDay
  {
    if frequency == "daily" then t + MsPerDay
    else if frequency == "weekly" then t + 7 * MsPerDay
    else if frequency == "monthly" then cal.addMonth(t)
    else if frequency == "yearly" then cal.addYear(t)
    else t
  }

  /** Validation of a new template: the stored document or the 400 response. */
  function ValidateTemplate(req: NewTemplate, now: Time, cal: Calendar): (r: Result<Template, Error>)
    requires Plausible(cal)
    ensures r.Ok? <==>
      Truthy(req.amount) && req.kind != "" && req.category != "" && IsFrequency(req.frequency)
    ensures (!Truthy(req.amount) || req.kind == "" || req.category == "" || req.frequency == "")
            ==> r == Err(BadRequest("Amount, type, category, and frequency are required"))
    ensures (Truthy(req.amount) && req.kind != "" && req.category != ""
             && req.frequency != "" && !IsFrequency(req.frequency))
            ==> r == Err(BadRequest("Invalid frequency"))
    ensures r.Ok? ==>
      && r.value.active && r.value.description == req.description
      && r.value.amount == req.amount.value && r.value.kind == req.kind
      && r.value.category == req.category && r.value.frequency == req.frequency
      && r.value.nextDue == Some(Advance(cal, req.frequency, now)) && r.value.nextDue.value > now
      && r.value.createdAt == now
  {
    if !Truthy(req.amount) || req.kind == "" || req.category == "" || req.frequency == "" then
      Err(BadRequest("Amount, type, category, and frequency are required"))
    else if !IsFrequency(req.frequency) then
      Err(BadRequest("Invalid frequency"))
    else
      Ok(Template(req.amount.value, req.kind, req.category, req.description, req.frequency,
                  Some(Advance(cal, req.frequency, now)), true, now))
  }

  /** `POST /api/recurring`: stores a new active template due one period from now. */
  method Create(st: Store, req: NewTemplate, now: Time, cal: Calendar) returns (r: Result<Id, Error>)
    requires st.Valid() && Plausible(cal)
    modifies st
    ensures st.Valid()
    ensures ValidateTemplate(req, now, cal).Err? ==> r == Err(ValidateTemplate(req, now, cal).error) && unchanged(st)
    ensures ValidateTemplate(req, now, cal).Ok? ==>
      && r == Ok(old(st.nextId)) && r.value !in old(st.templates) && st.nextId == old(st.nextId) + 1
      && st.templates == old(st.templates)[r.value := ValidateTemplate(req, now, cal).value]
      && st.expenses == old(st.expenses) && st.balance == old(st.balance) && st.budgets == old(st.budgets)
  {
    var v := ValidateTemplate(req, now, cal);
    if v.Err? {
      return Err(v.error);
    }
    var id := st.NewId();
    st.templates := st.templates[id := v.value];
    r := Ok(id);
  }

  /** `DELETE /api/recurring/:id`: succeeds whether or not the template exists. */
  method Delete(st: Store, id: Id)
    requires st.Valid()
    modifies st
    ensures st.Valid()
    ensures st.templates == old(st.templates) - {id}
    ensures id !in old(st.templates) ==> st.templates == old(st.templates)
    ensures st.expenses == old(st.expenses) && st.balance == old(st.balance)
    ensures st.budgets == old(st.budgets) && st.nextId == old(st.nextId)
  {
    st.templates := st.templates - {id};
  }

  /** A template fires when it is active, has a due time, and that time has come. */
  predicate Fires(t: Template, now: Time): (r: bool)
    ensures !t.active ==> !r
    ensures t.nextDue.None? ==> !r
    ensures t.nextDue.Some? && now < t.nextDue.value ==> !r
    ensures r ==> t.nextDue.value <= now
  {
    t.active && t.nextDue.Some? && t.nextDue.value <= now
  }

  /** The expense a firing template books. */
  function Materialize(t: Template, now: Time): (e: Expense)
    ensures e.amount == t.amount && e.kind == t.kind && e.category == t.category
    ensures e.description == "[Recurring] " + t.description
    ensures e.date == now && e.createdAt == now
  {
    Expense(t.amount, t.kind, t.category, "[Recurring] " + t.description, now, now)
  }

  /** A fired template, moved one period on from its previous due time (not from now). */
  function Advanced(t: Template, cal: Calendar): (r: Template)
    requires Plausible(cal) && t.nextDue.Some?
    ensures r.nextDue == Some(Advance(cal, t.frequency, t.nextDue.value))
    ensures IsFrequency(t.frequency) ==> r.nextDue.value > t.nextDue.value
    ensures r == t.(nextDue := r.nextDue)
  {
    t.(nextDue := Some(Advance(cal, t.frequency, t.nextDue.value)))
  }

  /** The expenses booked for `fired`, under the consecutive ids allocated from `base`. */
  function Materialized(fired: seq<Doc<Template>>, base: Id, now: Time): (m: map<Id, Expense>)
    ensures forall i :: i in m <==> base <= i < base + |fired|
    ensures forall k :: 0 <= k < |fired| ==> m[base + k] == Materialize(fired[k].data, now)
  {
    if fired == [] then map[]
    else
      var n := |fired| - 1;
      Materialized(fired[..n], base, now)[base + n := Materialize(fired[n].data, now)]
  }

  /** Writing one more key over a union is writing it into the right operand. */
  lemma UnionUpdate(a: map<Id, Expense>, b: map<Id, Expense>, k: Id, v: Expense)
    ensures (a + b)[k := v] == a + b[k := v]
  {
  }

  /** The balance after debiting every fired template in turn. */
  function DebitEach(b: Option<Balance>, fired: seq<Doc<Template>>, at: Time): (r: Option<Balance>)
    ensures b.None? <==> r.None?
    ensures fired == [] ==> r == b
    ensures fired != [] && b.Some? ==> r.value.updatedAt == at
  {
    if fired == [] then b
    else
      var last := fired[|fired| - 1].data;
      Debit(DebitEach(b, fired[..|fired| - 1], at), last.kind, last.amount, at)
  }

  /** The sum of the amounts of the fired templates of one balance field. */
  function FieldTotal(fired: seq<Doc<Template>>, cash: bool): real
  {
    if fired == [] then 0.0
    else
      var last := fired[|fired| - 1].data;
      FieldTotal(fired[..|fired| - 1], cash) + (if IsCash(last.kind) == cash then last.amount else 0.0)
  }

  /** Applying debits each field by exactly the amounts of the templates booked against it; with no
      balance document there is still none afterwards. */
  lemma {:induction false} DebitEachTotals(b: Option<Balance>, fired: seq<Doc<Template>>, at: Time)
    ensures b.None? ==> DebitEach(b, fired, at).None?
    ensures b.Some? ==>
      && DebitEach(b, fired, at).Some?
      && DebitEach(b, fired, at).value.cashAmount == b.value.cashAmount - FieldTotal(fired, true)
      && DebitEach(b, fired, at).value.onlineAmount == b.value.onlineAmount - FieldTotal(fired, false)
  {
    if fired != [] {
      DebitEachTotals(b, fired[..|fired| - 1], at);
    }
  }

  /** The ids of the templates of `m` that fire at `now`. */
  function DueIds(m: map<Id, Template>, now: Time): set<Id>
  {
    set id | id in m && Fires(m[id], now)
  }

  /** The ids of the templates of `before` visited in `visited` that fire at `now`. */
  function DueAmong(before: map<Id, Template>, visited: seq<Doc<Template>>, now: Time): set<Id>
  {
    set id | id in before && id in IdsOf(visited) && Fires(before[id], now)
  }

  /** `applied` holds, once each and as they were read, the templates of `before` that fired among those visited. */
  ghost predicate AppliedAmong(applied: seq<Doc<Template>>, before: map<Id, Template>,
                               visited: seq<Doc<Template>>, now: Time)
  {
    && DistinctIds(applied)
    && (forall k :: 0 <= k < |applied| ==>
          applied[k].id in before && applied[k].data == before[applied[k].id] && Fires(applied[k].data, now))
    && IdsOf(applied) == DueAmong(before, visited, now)
  }

  /** The templates with each fired one, in turn, moved one period on from its due time as read. */
  function AdvanceAll(templates: map<Id, Template>, fired: seq<Doc<Template>>, cal: Calendar): map<Id, Template>
    requires Plausible(cal)
    requires forall k :: 0 <= k < |fired| ==> fired[k].data.nextDue.Some?
  {
    if fired == [] then templates
    else
      var last := fired[|fired| - 1];
      AdvanceAll(templates, fired[..|fired| - 1], cal)[last.id := Advanced(last.data, cal)]
  }

  /** Advancing templates read from `before` advances exactly those and keeps every other one. */
  lemma {:induction false} AdvanceAllFacts(before: map<Id, Template>, fired: seq<Doc<Template>>, cal: Calendar)
    requires Plausible(cal)
    requires forall k :: 0 <= k < |fired| ==>
      fired[k].id in before && fired[k].data == before[fired[k].id] && fired[k].data.nextDue.Some?
    ensures AdvanceAll(before, fired, cal).Keys == before.Keys
    ensures forall id :: id in before ==>
      AdvanceAll(before, fired, cal)[id] == if id in IdsOf(fired) then Advanced(before[id], cal) else before[id]
    decreases |fired|
  {
    if fired != [] {
      var n := |fired| - 1;
      AdvanceAllFacts(before, fired[..n], cal);
      assert fired == fired[..n] + [fired[n]];
      IdsOfAppend(fired[..n], fired[n]);
    }
  }

  /** Visiting a snapshot document that does not fire changes nothing recorded. */
  lemma StepSkip(applied: seq<Doc<Template>>, before: map<Id, Template>, docs: seq<Doc<Template>>,
                 i: nat, now: Time)
    requires IsSnapshot(docs, before) && i < |docs|
    requires AppliedAmong(applied, before, docs[..i], now)
    requires !Fires(docs[i].data, now)
    ensures AppliedAmong(applied, before, docs[..i + 1], now)
  {
    assert docs[..i + 1] == docs[..i] + [docs[i]];
    IdsOfAppend(docs[..i], docs[i]);
  }

  /** Visiting a snapshot document that fires records it. */
  lemma StepFire(applied: seq<Doc<Template>>, before: map<Id, Template>,
                 docs: seq<Doc<Template>>, i: nat, now: Time)
    requires IsSnapshot(docs, before) && i < |docs|
    requires AppliedAmong(applied, before, docs[..i], now)
    requires Fires(docs[i].data, now)
    ensures docs[i].id !in IdsOf(applied)
    ensures AppliedAmong(applied + [docs[i]], before, docs[..i + 1], now)
  {
    var doc := docs[i];
    NextIdFresh(docs, i, applied);
    assert docs[..i + 1] == docs[..i] + [doc];
    IdsOfAppend(docs[..i], doc);
    IdsOfAppend(applied, doc);
    var ext := applied + [doc];
    assert forall k :: 0 <= k < |applied| ==> ext[k] == applied[k];
    forall a, b | 0 <= a < b < |ext| ensures ext[a].id != ext[b].id {
      if b == |applied| {
        assert ext[a].id in IdsOf(applied);
      }
    }
  }

  /** The document visited next is not among those visited before. */
  lemma NextIdFresh(docs: seq<Doc<Template>>, i: nat, applied: seq<Doc<Template>>)
    requires i < |docs| && DistinctIds(docs)
    requires IdsOf(applied) <= IdsOf(docs[..i])
    ensures docs[i].id !in IdsOf(applied)
  {
    forall k | 0 <= k < i ensures docs[..i][k].id != docs[i].id {
      assert docs[..i][k] == docs[k];
    }
  }

  /** The body of the apply loop for one due template: books the expense, debits the balance if
      there is one, and writes back the advanced due time. */
  method Fire(st: Store, id: Id, t: Template, now: Time, cal: Calendar)
    requires st.Valid() && Plausible(cal) && Fires(t, now) && id in st.templates
    modifies st
    ensures st.Valid()
    ensures st.nextId == old(st.nextId) + 1
    ensures st.expenses == old(st.expenses)[old(st.nextId) := Materialize(t, now)]
    ensures st.balance == Debit(old(st.balance), t.kind, t.amount, now)
    ensures st.templates == old(st.templates)[id := Advanced(t, cal)]
    ensures st.budgets == old(st.budgets)
  {
    var eid := st.NewId();
    st.expenses := st.expenses[eid := Materialize(t, now)];
    if st.balance.Some? {
      var current := st.balance.value;
      if t.kind == Cash {
        st.balance := Some(current.(cashAmount := current.cashAmount - t.amount, updatedAt := now));
      } else {
        st.balance := Some(current.(onlineAmount := current.onlineAmount - t.amount, updatedAt := now));
      }
    }
    var due := Advance(cal, t.frequency, t.nextDue.value);
    st.templates := st.templates[id := t.(nextDue := Some(due))];
  }

  /** What the apply loop has done after visiting the first `i` snapshot documents: the store's
      expenses, balance, templates and id counter are the initial ones with exactly the fired
      templates booked, debited and advanced. */
  ghost predicate Progress(before: map<Id, Template>, docs: seq<Doc<Template>>, i: nat,
                           applied: seq<Doc<Template>>, now: Time, cal: Calendar,
                           expenses0: map<Id, Expense>, balance0: Option<Balance>, base: Id,
                           expenses: map<Id, Expense>, balance: Option<Balance>,
                           templates: map<Id, Template>, nextId: Id)
    requires Plausible(cal)
  {
    && i <= |docs|
    && AppliedAmong(applied, before, docs[..i], now)
    && Booked(before, applied, now, cal, expenses0, balance0, base, expenses, balance, templates, nextId)
  }

  /** The store's part of `Progress`: exactly the templates of `applied` booked, debited and advanced. */
  ghost predicate Booked(before: map<Id, Template>, applied: seq<Doc<Template>>, now: Time, cal: Calendar,
                         expenses0: map<Id, Expense>, balance0: Option<Balance>, base: Id,
                         expenses: map<Id, Expense>, balance: Option<Balance>,
                         templates: map<Id, Template>, nextId: Id)
    requires Plausible(cal)
  {
    && (forall k :: 0 <= k < |applied| ==> applied[k].data.nextDue.Some?)
    && templates.Keys == before.Keys
    && templates == AdvanceAll(before, applied, cal)
    && nextId == base + |applied|
    && expenses == expenses0 + Materialized(applied, base, now)
    && balance == DebitEach(balance0, applied, now)
  }

  /** Booking one more template from `before` keeps `Booked`. */
  lemma BookedFire(before: map<Id, Template>, applied: seq<Doc<Template>>, doc: Doc<Template>,
                   now: Time, cal: Calendar,
                   expenses0: map<Id, Expense>, balance0: Option<Balance>, base: Id,
                   expenses: map<Id, Expense>, balance: Option<Balance>,
                   templates: map<Id, Template>, nextId: Id)
    requires Plausible(cal) && doc.id in before && doc.data.nextDue.Some?
    requires Booked(before, applied, now, cal, expenses0, balance0, base, expenses, balance, templates, nextId)
    ensures Booked(before, applied + [doc], now, cal, expenses0, balance0, base,
                   expenses[nextId := Materialize(doc.data, now)],
                   Debit(balance, doc.data.kind, doc.data.amount, now),
                   templates[doc.id := Advanced(doc.data, cal)], nextId + 1)
  {
    BookedTemplates(before, applied, doc, cal, templates);
    BookedExpenses(applied, doc, base, expenses0, expenses, nextId, now);
    BookedBalance(applied, doc, balance0, balance, now);
  }

  /** One visit of the apply loop to a document that fires keeps `Progress`. */
  lemma ProgressFire(before: map<Id, Template>, docs: seq<Doc<Template>>, i: nat,
                     applied: seq<Doc<Template>>, now: Time, cal: Calendar,
                     expenses0: map<Id, Expense>, balance0: Option<Balance>, base: Id,
                     expenses: map<Id, Expense>, balance: Option<Balance>,
                     templates: map<Id, Template>, nextId: Id)
    requires Plausible(cal) && IsSnapshot(docs, before) && i < |docs|
    requires Progress(before, docs, i, applied, now, cal, expenses0, balance0, base,
                      expenses, balance, templates, nextId)
    requires Fires(docs[i].data, now)
    ensures docs[i].id in templates
    ensures Progress(before, docs, i + 1, applied + [docs[i]], now, cal, expenses0, balance0, base,
                     expenses[nextId := Materialize(docs[i].data, now)],
                     Debit(balance, docs[i].data.kind, docs[i].data.amount, now),
                     templates[docs[i].id := Advanced(docs[i].data, cal)], nextId + 1)
  {
    StepFire(applied, before, docs, i, now);
    BookedFire(before, applied, docs[i], now, cal, expenses0, balance0, base,
               expenses, balance, templates, nextId);
  }

  /** Firing one more template books it under the next id. */
  lemma BookedExpenses(applied: seq<Doc<Template>>, doc: Doc<Template>, base: Id,
                       expenses0: map<Id, Expense>, expenses: map<Id, Expense>, nextId: Id, now: Time)
    requires nextId == base + |applied|
    requires expenses == expenses0 + Materialized(applied, base, now)
    ensures expenses[nextId := Materialize(doc.data, now)] == expenses0 + Materialized(applied + [doc], base, now)
  {
    assert (applied + [doc])[..|applied|] == applied;
    UnionUpdate(expenses0, Materialized(applied, base, now), nextId, Materialize(doc.data, now));
  }

  /** Firing one more template debits it last. */
  lemma BookedBalance(applied: seq<Doc<Template>>, doc: Doc<Template>,
                      balance0: Option<Balance>, balance: Option<Balance>, now: Time)
    requires balance == DebitEach(balance0, applied, now)
    ensures Debit(balance, doc.data.kind, doc.data.amount, now) == DebitEach(balance0, applied + [doc], now)
  {
    assert (applied + [doc])[..|applied|] == applied;
  }

  /** Firing one more template of `before` advances it last and keeps the ids. */
  lemma BookedTemplates(before: map<Id, Template>, applied: seq<Doc<Template>>, doc: Doc<Template>,
                        cal: Calendar, templates: map<Id, Template>)
    requires Plausible(cal) && doc.id in before && doc.data.nextDue.Some?
    requires forall k :: 0 <= k < |applied| ==> applied[k].data.nextDue.Some?
    requires templates.Keys == before.Keys && templates == AdvanceAll(before, applied, cal)
    ensures forall k :: 0 <= k < |applied + [doc]| ==> (applied + [doc])[k].data.nextDue.Some?
    ensures templates[doc.id := Advanced(doc.data, cal)].Keys == before.Keys
    ensures templates[doc.id := Advanced(doc.data, cal)] == AdvanceAll(before, applied + [doc], cal)
  {
    assert (applied + [doc])[..|applied|] == applied;
    assert forall k :: 0 <= k < |applied + [doc]| ==> (applied + [doc])[k].data.nextDue.Some? by {
      forall k | 0 <= k < |applied + [doc]|
        ensures (applied + [doc])[k].data.nextDue.Some?
      {
        if k < |applied| {
          assert (applied + [doc])[k] == applied[k];
        }
      }
    }
  }

  /** One visit of the apply loop to a document that does not fire keeps `Progress`. */
  lemma ProgressSkip(before: map<Id, Template>, docs: seq<Doc<Template>>, i: nat,
                     applied: seq<Doc<Template>>, now: Time, cal: Calendar,
                     expenses0: map<Id, Expense>, balance0: Option<Balance>, base: Id,
                     expenses: map<Id, Expense>, balance: Option<Balance>,
                     templates: map<Id, Template>, nextId: Id)
    requires Plausible(cal) && IsSnapshot(docs, before) && i < |docs|
    requires Progress(before, docs, i, applied, now, cal, expenses0, balance0, base,
                      expenses, balance, templates, nextId)
    requires !Fires(docs[i].data, now)
    ensures Progress(before, docs, i + 1, applied, now, cal, expenses0, balance0, base,
                     expenses, balance, templates, nextId)
  {
    StepSkip(applied, before, docs, i, now);
  }

  /** The outcome of the apply route: `applied` lists, once each and as they were read, exactly
      the templates of `before` due at `now`; each was booked as one expense under consecutive new
      ids from `base`, debited from the balance and advanced by one period; nothing else changed. */
  ghost predicate AppliedExactly(before: map<Id, Template>, applied: seq<Doc<Template>>, now: Time, cal: Calendar,
                                 expenses0: map<Id, Expense>, balance0: Option<Balance>, base: Id,
                                 expenses: map<Id, Expense>, balance: Option<Balance>,
                                 templates: map<Id, Template>, nextId: Id)
    requires Plausible(cal)
  {
    && DistinctIds(applied)
    && (forall k :: 0 <= k < |applied| ==>
          && applied[k].id in before && applied[k].data == before[applied[k].id]
          && Fires(applied[k].data, now))
    && IdsOf(applied) == DueIds(before, now)
    && templates.Keys == before.Keys
    && (forall id :: id in before ==>
          templates[id] == if Fires(before[id], now) then Advanced(before[id], cal) else before[id])
    && nextId == base + |applied|
    && expenses == expenses0 + Materialized(applied, base, now)
    && balance == DebitEach(balance0, applied, now)
  }

  /** Having visited the whole snapshot, exactly the due templates have fired. */
  lemma ProgressDone(before: map<Id, Template>, docs: seq<Doc<Template>>,
                     applied: seq<Doc<Template>>, now: Time, cal: Calendar,
                     expenses0: map<Id, Expense>, balance0: Option<Balance>, base: Id,
                     expenses: map<Id, Expense>, balance: Option<Balance>,
                     templates: map<Id, Template>, nextId: Id)
    requires Plausible(cal) && IsSnapshot(docs, before)
    requires Progress(before, docs, |docs|, applied, now, cal, expenses0, balance0, base,
                      expenses, balance, templates, nextId)
    ensures AppliedExactly(before, applied, now, cal, expenses0, balance0, base,
                           expenses, balance, templates, nextId)
  {
    assert docs[..|docs|] == docs;
    AdvanceAllFacts(before, applied, cal);
  }

  /** When no template is due, the loop fires nothing and leaves the store as it was. */
  lemma NothingDue(before: map<Id, Template>, applied: seq<Doc<Template>>, now: Time, cal: Calendar,
                   expenses0: map<Id, Expense>, balance0: Option<Balance>, base: Id,
                   expenses: map<Id, Expense>, balance: Option<Balance>,
                   templates: map<Id, Template>, nextId: Id)
    requires Plausible(cal) && DueIds(before, now) == {}
    requires AppliedExactly(before, applied, now, cal, expenses0, balance0, base,
                            expenses, balance, templates, nextId)
    ensures applied == []
    ensures expenses == expenses0 && balance == balance0 && templates == before && nextId == base
  {
    IdsOfEmpty(applied);
    assert expenses0 + map[] == expenses0;
    forall id | id in before ensures templates[id] == before[id] {
      assert id !in DueIds(before, now);
    }
  }

  /** `POST /api/recurring/apply`: for every active template whose due time has passed, books one
      expense dated now, debits the balance, and moves the due time one period on. Returns the fired
      templates as they were read, in the order visited. */
  method Apply(st: Store, now: Time, cal: Calendar) returns (applied: seq<Doc<Template>>)
    requires st.Valid() && Plausible(cal)
    modifies st
    ensures st.Valid()
    ensures AppliedExactly(old(st.templates), applied, now, cal, old(st.expenses), old(st.balance), old(st.nextId),
                           st.expenses, st.balance, st.templates, st.nextId)
    ensures st.budgets == old(st.budgets)
    ensures DueIds(old(st.templates), now) == {} ==>
      applied == [] && st.expenses == old(st.expenses) && st.balance == old(st.balance)
      && st.templates == old(st.templates) && st.nextId == old(st.nextId)
  {
    var docs := Snapshot(st.templates);
    ghost var before, base := st.templates, st.nextId;
    ghost var expenses0, balance0 := st.expenses, st.balance;
    assert docs[..0] == [];
    assert expenses0 + map[] == expenses0;
    applied := VisitAll(st, docs, now, cal, before, expenses0, balance0, base);
    ProgressDone(before, docs, applied, now, cal, expenses0, balance0, base,
                 st.expenses, st.balance, st.templates, st.nextId);
    if DueIds(before, now) == {} {
      NothingDue(before, applied, now, cal, expenses0, balance0, base,
                 st.expenses, st.balance, st.templates, st.nextId);
    }
  }

  /** The loop of the apply route over the snapshot `docs` of the templates `before`: visits each
      document once, in order, firing those that are due. */
  method VisitAll(st: Store, docs: seq<Doc<Template>>, now: Time, cal: Calendar, ghost before: map<Id, Template>,
                  ghost expenses0: map<Id, Expense>, ghost balance0: Option<Balance>, ghost base: Id)
    returns (applied: seq<Doc<Template>>)
    requires st.Valid() && Plausible(cal) && IsSnapshot(docs, before)
    requires Progress(before, docs, 0, [], now, cal, expenses0, balance0, base,
                      st.expenses, st.balance, st.templates, st.nextId)
    modifies st
    ensures st.Valid() && st.budgets == old(st.budgets)
    ensures Progress(before, docs, |docs|, applied, now, cal, expenses0, balance0, base,
                     st.expenses, st.balance, st.templates, st.nextId)
  {
    ghost var budgets0 := st.budgets;
    applied := [];
    var i := 0;
    while i < |docs|
      invariant st.Valid() && st.budgets == budgets0
      invariant Progress(before, docs, i, applied, now, cal, expenses0, balance0, base,
                         st.expenses, st.balance, st.templates, st.nextId)
      decreases |docs| - i
    {
      applied := Visit(st, docs, i, applied, now, cal, before, expenses0, balance0, base);
      i := i + 1;
    }
  }

  /** One turn of the apply loop: fires the `i`-th snapshot document if it is active and due. */
  method Visit(st: Store, docs: seq<Doc<Template>>, i: nat, applied: seq<Doc<Template>>, now: Time, cal: Calendar,
               ghost before: map<Id, Template>, ghost expenses0: map<Id, Expense>, ghost balance0: Option<Balance>,
               ghost base: Id)
    returns (applied': seq<Doc<Template>>)
    requires st.Valid() && Plausible(cal) && IsSnapshot(docs, before) && i < |docs|
    requires Progress(before, docs, i, applied, now, cal, expenses0, balance0, base,
                      st.expenses, st.balance, st.templates, st.nextId)
    modifies st
    ensures st.Valid() && st.budgets == old(st.budgets)
    ensures applied' == if Fires(docs[i].data, now) then applied + [docs[i]] else applied
    ensures Progress(before, docs, i + 1, applied', now, cal, expenses0, balance0, base,
                     st.expenses, st.balance, st.templates, st.nextId)
  {
    var doc := docs[i];
    var t := doc.data;
    if Fires(t, now) {
      ProgressFire(before, docs, i, applied, now, cal, expenses0, balance0, base,
                   st.expenses, st.balance, st.templates, st.nextId);
      Fire(st, doc.id, t, now, cal);
      applied' := applied + [doc];
    } else {
      ProgressSkip(before, docs, i, applied, now, cal, expenses0, balance0, base,
                   st.expenses, st.balance, st.templates, st.nextId);
      applied' := applied;
    }
  }
}
