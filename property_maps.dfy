/**
 * The `HashMap` operations the task applies to its system properties:
 * `put` for one property, `putAll` for a whole map, and a run of `put`s
 * as successive `systemProperty(name, value)` calls produce it.
 */
module PropertyMaps {

  /** `put(key, value)`: the key now maps to the value, every other key is untouched. */
  function Put<K, V>(m: map<K, V>, key: K, value: V): (r: map<K, V>)
    ensures key in r && r[key] == value
    ensures r.Keys == m.Keys + {key}
    ensures forall k | k in m && k != key :: r[k] == m[k]
  {
    m[key := value]
  }

  /** `putAll(entries)`: keys of `entries` take its values, the others keep theirs. */
  function PutAll<K, V>(m: map<K, V>, entries: map<K, V>): (r: map<K, V>)
    ensures r.Keys == m.Keys + entries.Keys
    ensures forall k | k in entries :: r[k] == entries[k]
    ensures forall k | k in m && k !in entries :: r[k] == m[k]
  {
    m + entries
  }

  /** The map after the `put`s of `puts`, performed left to right. */
  function PutEach<K, V>(m: map<K, V>, puts: seq<(K, V)>): map<K, V>
    decreases |puts|
  {
    if puts == [] then m else PutEach(Put(m, puts[0].0, puts[0].1), puts[1..])
  }

  /** A key that no `put` of the run names keeps its presence and its value. */
  lemma {:induction false} PutEachKeepsOtherKeys<K, V>(m: map<K, V>, puts: seq<(K, V)>, key: K)
    requires forall j | 0 <= j < |puts| :: puts[j].0 != key
    ensures key in PutEach(m, puts) <==> key in m
    ensures key in m ==> PutEach(m, puts)[key] == m[key]
    decreases |puts|
  {
    if puts != [] {
      assert puts[0].0 != key;
      PutEachKeepsOtherKeys(Put(m, puts[0].0, puts[0].1), puts[1..], key);
    }
  }

  /** Later puts override earlier ones: a key ends up with the value of the
      last `put` that names it. */
  lemma {:induction false} PutEachLastWins<K, V>(m: map<K, V>, puts: seq<(K, V)>, i: nat)
    requires i < |puts|
    requires forall j | i < j < |puts| :: puts[j].0 != puts[i].0
    ensures puts[i].0 in PutEach(m, puts) && PutEach(m, puts)[puts[i].0] == puts[i].1
    decreases i
  {
    var m' := Put(m, puts[0].0, puts[0].1);
    if i == 0 {
      PutEachKeepsOtherKeys(m', puts[1..], puts[0].0);
    } else {
      PutEachLastWins(m', puts[1..], i - 1);
    }
  }

  /** `putAll` of a map whose entries are listed by `puts` (one entry per key)
      is the same as putting them one by one, in any listing order. */
  lemma PutAllIsPutEach<K, V>(m: map<K, V>, puts: seq<(K, V)>, entries: map<K, V>)
    requires forall j | 0 <= j < |puts| :: puts[j].0 in entries && entries[puts[j].0] == puts[j].1
    requires forall k | k in entries :: exists j :: 0 <= j < |puts| && puts[j].0 == k
    requires forall i, j | 0 <= i < j < |puts| :: puts[i].0 != puts[j].0
    ensures PutAll(m, entries) == PutEach(m, puts)
  {
    var r, p := PutEach(m, puts), PutAll(m, entries);
    forall k | k in r.Keys + p.Keys
      ensures k in r.Keys && k in p.Keys && r[k] == p[k]
    {
      PutAllIsPutEachAt(m, puts, entries, k);
    }
    assert r.Keys == p.Keys;
  }

  /** One key of `PutAllIsPutEach`. */
  lemma PutAllIsPutEachAt<K, V>(m: map<K, V>, puts: seq<(K, V)>, entries: map<K, V>, k: K)
    requires forall j | 0 <= j < |puts| :: puts[j].0 in entries && entries[puts[j].0] == puts[j].1
    requires forall k | k in entries :: exists j :: 0 <= j < |puts| && puts[j].0 == k
    requires forall i, j | 0 <= i < j < |puts| :: puts[i].0 != puts[j].0
    ensures k in PutEach(m, puts) <==> k in PutAll(m, entries)
    ensures k in PutEach(m, puts) ==> PutEach(m, puts)[k] == PutAll(m, entries)[k]
  {
    if k in entries {
      var j :| 0 <= j < |puts| && puts[j].0 == k;
      PutEachLastWins(m, puts, j);
    } else {
      PutEachKeepsOtherKeys(m, puts, k);
    }
  }
}
