/** The plain JavaScript objects the statistics route accumulates into (`byCategory`, `dailyTotals`),
    as association lists in key-insertion order. */
module Tally {

  datatype Entry<K> = Entry(key: K, amount: real)

  /** The keys present. */
  function KeySet<K>(entries: seq<Entry<K>>): set<K>
  {
    if entries == [] then {} else {entries[0].key} + KeySet(entries[1..])
  }

  /** No key occurs twice. */
  predicate UniqueKeys<K(==)>(entries: seq<Entry<K>>)
  {
    entries == [] || (entries[0].key !in KeySet(entries[1..]) && UniqueKeys(entries[1..]))
  }

  /** `obj[key] || 0`: the amount under `key`, zero when the key is absent. */
  function Lookup<K(==)>(entries: seq<Entry<K>>, key: K): real
  {
    if entries == [] then 0.0
    else if entries[0].key == key then entries[0].amount
    else Lookup(entries[1..], key)
  }

  /** The sum of all amounts (`Object.values(obj)` added up). */
  function SumOf<K>(entries: seq<Entry<K>>): real
  {
    if entries == [] then 0.0 else entries[0].amount + SumOf(entries[1..])
  }

  /** `obj[key] = (obj[key] || 0) + amount`: a present key keeps its place and grows by `amount`,
      a new key is appended with `amount`. */
  function AddTo<K(==,!new)>(entries: seq<Entry<K>>, key: K, amount: real): (r: seq<Entry<K>>)
    ensures KeySet(r) == KeySet(entries) + {key}
    ensures UniqueKeys(entries) ==> UniqueKeys(r)
    ensures forall k :: Lookup(r, k) == Lookup(entries, k) + (if k == key then amount else 0.0)
    ensures SumOf(r) == SumOf(entries) + amount
    ensures key !in KeySet(entries) ==> r == entries + [Entry(key, amount)]
    ensures key in KeySet(entries) ==>
      |r| == |entries| && forall i :: 0 <= i < |r| ==> r[i].key == entries[i].key
  {
    if entries == [] then [Entry(key, amount)]
    else if entries[0].key == key then [Entry(key, entries[0].amount + amount)] + entries[1..]
    else
      var rest := AddTo(entries[1..], key, amount);
      assert ([entries[0]] + rest)[1..] == rest;
      assert key !in KeySet(entries[1..]) ==> entries == [entries[0]] + entries[1..];
      [entries[0]] + rest
  }

  /** In a tally with unique keys, every entry holds the amount `Lookup` reports for its key. */
  lemma {:induction false} LookupMember<K>(entries: seq<Entry<K>>, e: Entry<K>)
    requires UniqueKeys(entries) && e in entries
    ensures Lookup(entries, e.key) == e.amount
  {
    if entries[0] != e {
      assert e in entries[1..];
      KeySetMember(entries[1..], e);
      LookupMember(entries[1..], e);
    }
  }

  /** The key of an entry is among the keys. */
  lemma {:induction false} KeySetMember<K>(entries: seq<Entry<K>>, e: Entry<K>)
    requires e in entries
    ensures e.key in KeySet(entries)
  {
    if entries[0] != e {
      assert e in entries[1..];
      KeySetMember(entries[1..], e);
    }
  }
}
