/** The identity cache: the insertion-ordered JavaScript `Map` from Tebex id to player
    name, as a sequence of (key, value) entries. `Map.set` is `Upsert`, `Map.get` is
    `Lookup`, and the spawn handler's scan `[...map].find(([_, name]) => ...)` is
    `FindByName`. */
module Identity {
  import opened Wrappers
  import opened Seqs

  /** No key appears twice: the shape every JavaScript `Map` has. */
  predicate UniqueKeys<K(==), V>(m: seq<(K, V)>) {
    forall i, j :: 0 <= i < j < |m| ==> m[i].0 != m[j].0
  }

  function KeyIs<K(==), V>(k: K): ((K, V)) -> bool {
    (e: (K, V)) => e.0 == k
  }

  function ValueIs<K, V(==)>(v: V): ((K, V)) -> bool {
    (e: (K, V)) => e.1 == v
  }

  function Lookup<K(==), V>(m: seq<(K, V)>, k: K): Option<V> {
    match FirstIndex(m, KeyIs(k))
    case None => None
    case Some(i) => Some(m[i].1)
  }

  /** `Map.set`: an existing key keeps its place and takes the new value; a new key is
      appended at the end of the insertion order. */
  function Upsert<K(==), V>(m: seq<(K, V)>, k: K, v: V): seq<(K, V)> {
    match FirstIndex(m, KeyIs(k))
    case Some(i) => m[i := (k, v)]
    case None => m + [(k, v)]
  }

  lemma UpsertSemantics<K, V>(m: seq<(K, V)>, k: K, v: V)
    ensures Lookup(Upsert(m, k, v), k) == Some(v)
    ensures forall k' :: k' != k ==> Lookup(Upsert(m, k, v), k') == Lookup(m, k')
    ensures |Upsert(m, k, v)| == if Lookup(m, k).Some? then |m| else |m| + 1
    ensures forall i :: 0 <= i < |m| ==> Upsert(m, k, v)[i].0 == m[i].0
    ensures forall i :: 0 <= i < |m| && m[i].0 != k ==> Upsert(m, k, v)[i] == m[i]
    ensures UniqueKeys(m) ==> UniqueKeys(Upsert(m, k, v))
  {
    var r := Upsert(m, k, v);
    match FirstIndex(m, KeyIs(k))
    case Some(i) =>
      FirstIndexAt(r, KeyIs(k), i);
      forall k' | k' != k ensures Lookup(r, k') == Lookup(m, k') {
        match FirstIndex(m, KeyIs(k'))
        case Some(j) => FirstIndexAt(r, KeyIs(k'), j);
        case None =>
      }
    case None =>
      FirstIndexAt(r, KeyIs(k), |m|);
      forall k' | k' != k ensures Lookup(r, k') == Lookup(m, k') {
        match FirstIndex(m, KeyIs(k'))
        case Some(j) => FirstIndexAt(r, KeyIs(k'), j);
        case None =>
      }
  }

  /** The key of the first entry, in insertion order, whose value is `v`. */
  function FindByName<K, V(==)>(m: seq<(K, V)>, v: V): (r: Option<K>)
    ensures r.None? <==> forall i :: 0 <= i < |m| ==> m[i].1 != v
    ensures r.Some? ==> exists i :: 0 <= i < |m| && m[i] == (r.value, v) &&
                         forall j :: 0 <= j < i ==> m[j].1 != v
  {
    match FirstIndex(m, ValueIs(v))
    case None => None
    case Some(i) => Some(m[i].0)
  }

  /** An entry appended after one that already has the value does not change the scan. */
  lemma FindByNameAppend<K, V>(m: seq<(K, V)>, e: (K, V), v: V)
    requires FindByName(m, v).Some?
    ensures FindByName(m + [e], v) == FindByName(m, v)
  {
    var j := FirstIndex(m, ValueIs(v)).value;
    assert (m + [e])[..|m|] == m;
    FirstIndexPrefix(m + [e], ValueIs(v), |m|, j);
  }

  /** Upserting a key the map does not hold appends it, so the scan for a value the map
      already holds still finds the earlier entry, whose key is another. */
  lemma UpsertNewKeyKeepsFindByName<K, V>(m: seq<(K, V)>, k: K, v: V, w: V)
    requires Lookup(m, k).None? && FindByName(m, w).Some?
    ensures FindByName(Upsert(m, k, v), w) == FindByName(m, w)
    ensures FindByName(m, w).value != k
  {
    assert Upsert(m, k, v) == m + [(k, v)];
    FindByNameAppend(m, (k, v), w);
    var j :| 0 <= j < |m| && m[j] == (FindByName(m, w).value, w);
    assert !KeyIs(k)(m[j]);
  }

  /** A run of upserts, in order. */
  function UpsertAll<K(==), V>(m: seq<(K, V)>, entries: seq<(K, V)>): seq<(K, V)>
    decreases |entries|
  {
    if entries == [] then m else UpsertAll(Upsert(m, entries[0].0, entries[0].1), entries[1..])
  }

  /** The value of the last entry with key `k`, if any. */
  function LastValue<K(==), V>(entries: seq<(K, V)>, k: K): Option<V>
    decreases |entries|
  {
    if entries == [] then None
    else match LastValue(entries[1..], k)
      case Some(v) => Some(v)
      case None => if entries[0].0 == k then Some(entries[0].1) else None
  }

  /** An entry with key `k` and no later entry with key `k` is the last one. */
  lemma {:induction false} LastValueAt<K, V>(entries: seq<(K, V)>, k: K, i: nat)
    requires i < |entries| && entries[i].0 == k
    requires forall j :: i < j < |entries| ==> entries[j].0 != k
    ensures LastValue(entries, k) == Some(entries[i].1)
  {
    if i == 0 {
      LastValueAbsent(entries[1..], k);
    } else {
      LastValueAt(entries[1..], k, i - 1);
    }
  }

  lemma {:induction false} LastValueAbsent<K, V>(entries: seq<(K, V)>, k: K)
    requires forall j :: 0 <= j < |entries| ==> entries[j].0 != k
    ensures LastValue(entries, k) == None
    decreases |entries|
  {
    if entries != [] {
      LastValueAbsent(entries[1..], k);
    }
  }

  /** After a run of upserts each key holds the value of its last upsert; a key never
      upserted keeps its old value. */
  lemma {:induction false} UpsertAllLookup<K, V>(m: seq<(K, V)>, entries: seq<(K, V)>, k: K)
    ensures Lookup(UpsertAll(m, entries), k) ==
            if LastValue(entries, k).Some? then LastValue(entries, k) else Lookup(m, k)
    decreases |entries|
  {
    if entries != [] {
      UpsertSemantics(m, entries[0].0, entries[0].1);
      UpsertAllLookup(Upsert(m, entries[0].0, entries[0].1), entries[1..], k);
    }
  }

  lemma {:induction false} UpsertAllKeepsUniqueKeys<K, V>(m: seq<(K, V)>, entries: seq<(K, V)>)
    requires UniqueKeys(m)
    ensures UniqueKeys(UpsertAll(m, entries))
    decreases |entries|
  {
    if entries != [] {
      UpsertSemantics(m, entries[0].0, entries[0].1);
      UpsertAllKeepsUniqueKeys(Upsert(m, entries[0].0, entries[0].1), entries[1..]);
    }
  }
}
