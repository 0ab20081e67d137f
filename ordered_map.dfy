/**
 * java.util.Map as the modelled code uses it: a list of entries in iteration
 * order whose keys are distinct.  Values are never null.  The operations are
 * those of the Map interface; the map views below delegate to them.
 */
module OrderedMap {
  import opened Base

  type Entries<K, V> = seq<(K, V)>

  predicate DistinctKeys<K(==), V>(es: Entries<K, V>)
  {
    forall i, j :: 0 <= i < j < |es| ==> es[i].0 != es[j].0
  }

  /** The position of key k, or |es| when it is absent. */
  function IndexOf<K(==), V>(es: Entries<K, V>, k: K): (r: nat)
    ensures r <= |es|
    ensures r < |es| ==> es[r].0 == k
    ensures forall j :: 0 <= j < r ==> es[j].0 != k
  {
    if es == [] then 0 else if es[0].0 == k then 0 else 1 + IndexOf(es[1..], k)
  }

  /** keySet(). */
  function Keys<K, V>(es: Entries<K, V>): set<K>
  {
    set i | 0 <= i < |es| :: es[i].0
  }

  /** values(), in iteration order. */
  function Values<K, V>(es: Entries<K, V>): seq<V>
  {
    seq(|es|, i requires 0 <= i < |es| => es[i].1)
  }

  /** get(k): null (None) for an absent key. */
  function Get<K(==), V>(es: Entries<K, V>, k: K): Option<V>
  {
    var i := IndexOf(es, k);
    if i < |es| then Some(es[i].1) else None
  }

  /** put(k, v): replaces the value in place, or appends a new entry. */
  function Put<K(==), V>(es: Entries<K, V>, k: K, v: V): Entries<K, V>
  {
    var i := IndexOf(es, k);
    if i < |es| then es[i := (k, v)] else es + [(k, v)]
  }

  /** remove(k). */
  function RemoveKey<K(==), V>(es: Entries<K, V>, k: K): Entries<K, V>
  {
    var i := IndexOf(es, k);
    if i < |es| then es[..i] + es[i + 1..] else es
  }

  /** entrySet().removeIf(p): the entries p rejects, in their order. */
  function RemoveIf<K, V>(es: Entries<K, V>, p: ((K, V)) -> bool): Entries<K, V>
  {
    if es == [] then []
    else if p(es[0]) then RemoveIf(es[1..], p)
    else [es[0]] + RemoveIf(es[1..], p)
  }

  /** The mapping the entries stand for. */
  function AsMap<K(==), V>(es: Entries<K, V>): map<K, V>
  {
    map k | k in Keys(es) :: Get(es, k).value
  }

  /** putAll(m): m's entries put one after the other. */
  function PutAll<K(==), V>(es: Entries<K, V>, m: Entries<K, V>): Entries<K, V>
    decreases |m|
  {
    if m == [] then es else PutAll(Put(es, m[0].0, m[0].1), m[1..])
  }

  /** replaceAll(f): every value replaced by f of its entry, keys and order kept. */
  function MapValues<K, V>(es: Entries<K, V>, f: (K, V) -> V): Entries<K, V>
  {
    seq(|es|, i requires 0 <= i < |es| => (es[i].0, f(es[i].0, es[i].1)))
  }

  /** Stores `v` under `k` when it is Some, and removes `k` when it is None (the compute family's rule for null). */
  function PutOrRemove<K(==), V>(es: Entries<K, V>, k: K, v: Option<V>): Entries<K, V>
  {
    if v.Some? then Put(es, k, v.value) else RemoveKey(es, k)
  }

  /**
   * A mutable java.util.Map object: the map a view is created over.  Several
   * views may share one, and each sees the others' changes.
   */
  class MapObject<K(==), V(==)> {
    var entries: Entries<K, V>

    predicate Valid()
      reads this
    {
      DistinctKeys(entries)
    }

    constructor ()
      ensures entries == [] && Valid()
    {
      entries := [];
    }
  }

  /** A key is found exactly when it is one of the keys, and then its value is the entry's. */
  lemma GetMeaning<K, V>(es: Entries<K, V>, k: K)
    requires DistinctKeys(es)
    ensures Get(es, k).Some? <==> k in Keys(es)
    ensures forall i :: 0 <= i < |es| && es[i].0 == k ==> Get(es, k) == Some(es[i].1)
  {
    if k in Keys(es) {
      var i :| 0 <= i < |es| && es[i].0 == k;
      assert IndexOf(es, k) <= i;
    }
  }

  /** put: the key now maps to v, every other key keeps its value, and the size grows only for a new key. */
  lemma PutMeaning<K, V>(es: Entries<K, V>, k: K, v: V, other: K)
    requires DistinctKeys(es)
    ensures DistinctKeys(Put(es, k, v))
    ensures Get(Put(es, k, v), k) == Some(v)
    ensures other != k ==> Get(Put(es, k, v), other) == Get(es, other)
    ensures |Put(es, k, v)| == if k in Keys(es) then |es| else |es| + 1
    ensures Keys(Put(es, k, v)) == Keys(es) + {k}
  {
    var r := Put(es, k, v);
    GetMeaning(es, k);
    GetMeaning(es, other);
    assert DistinctKeys(r);
    GetMeaning(r, k);
    GetMeaning(r, other);
    assert r[IndexOf(es, k)] == (k, v);
    if Get(es, other).Some? {
      assert r[IndexOf(es, other)] == es[IndexOf(es, other)] || other == k;
    }
    if Get(r, other).Some? && other != k {
      var i := IndexOf(r, other);
      assert r[i] == es[i];
    }
    assert Keys(r) == Keys(es) + {k} by {
      forall x | x in Keys(r) ensures x in Keys(es) + {k} {
        var i :| 0 <= i < |r| && r[i].0 == x;
        if i < |es| && x != k { assert r[i] == es[i]; }
      }
      forall x | x in Keys(es) ensures x in Keys(r) {
        var i :| 0 <= i < |es| && es[i].0 == x;
        if x != k { assert r[i] == es[i]; }
      }
    }
  }

  /** remove: the key is gone, every other key keeps its value, and the size shrinks only for a present key. */
  lemma RemoveKeyMeaning<K, V>(es: Entries<K, V>, k: K, other: K)
    requires DistinctKeys(es)
    ensures DistinctKeys(RemoveKey(es, k))
    ensures Get(RemoveKey(es, k), k) == None
    ensures other != k ==> Get(RemoveKey(es, k), other) == Get(es, other)
    ensures |RemoveKey(es, k)| == if k in Keys(es) then |es| - 1 else |es|
    ensures Keys(RemoveKey(es, k)) == Keys(es) - {k}
  {
    var i := IndexOf(es, k);
    var r := RemoveKey(es, k);
    GetMeaning(es, k);
    if i < |es| {
      assert forall j :: 0 <= j < |r| ==> r[j] == if j < i then es[j] else es[j + 1];
      assert DistinctKeys(r);
      assert Keys(r) == Keys(es) - {k} by {
        forall x | x in Keys(es) - {k} ensures x in Keys(r) {
          var j :| 0 <= j < |es| && es[j].0 == x;
          if j < i { assert r[j] == es[j]; } else { assert r[j - 1] == es[j]; }
        }
      }
    }
    GetMeaning(r, k);
    GetMeaning(r, other);
    GetMeaning(es, other);
    if Get(es, other).Some? && other != k {
      var j := IndexOf(es, other);
      if j < i { assert r[j] == es[j]; } else { assert r[j - 1] == es[j]; }
    }
  }

  /** removeIf keeps exactly the entries p rejects, and reports a change exactly when p accepted one. */
  lemma RemoveIfMeaning<K, V>(es: Entries<K, V>, p: ((K, V)) -> bool)
    ensures forall e :: e in RemoveIf(es, p) ==> e in es && !p(e)
    ensures forall e :: e in es && !p(e) ==> e in RemoveIf(es, p)
    ensures |RemoveIf(es, p)| <= |es|
    ensures |RemoveIf(es, p)| < |es| <==> exists i :: 0 <= i < |es| && p(es[i])
    ensures DistinctKeys(es) ==> DistinctKeys(RemoveIf(es, p))
  {
    RemoveIfMembers(es, p);
    RemoveIfShrinks(es, p);
    if DistinctKeys(es) {
      RemoveIfDistinct(es, p);
    }
  }

  lemma {:induction false} RemoveIfMembers<K, V>(es: Entries<K, V>, p: ((K, V)) -> bool)
    ensures forall e :: e in RemoveIf(es, p) ==> e in es && !p(e)
    ensures forall e :: e in es && !p(e) ==> e in RemoveIf(es, p)
  {
    if es != [] {
      RemoveIfMembers(es[1..], p);
      assert es == [es[0]] + es[1..];
    }
  }

  lemma {:induction false} RemoveIfShrinks<K, V>(es: Entries<K, V>, p: ((K, V)) -> bool)
    ensures |RemoveIf(es, p)| <= |es|
    ensures |RemoveIf(es, p)| < |es| <==> exists i :: 0 <= i < |es| && p(es[i])
  {
    if es != [] {
      RemoveIfShrinks(es[1..], p);
      if exists i :: 0 <= i < |es[1..]| && p(es[1..][i]) {
        var i :| 0 <= i < |es[1..]| && p(es[1..][i]);
        assert p(es[i + 1]);
      }
      if exists i :: 0 <= i < |es| && p(es[i]) {
        var i :| 0 <= i < |es| && p(es[i]);
        if i > 0 { assert p(es[1..][i - 1]); }
      }
    }
  }

  lemma {:induction false} RemoveIfDistinct<K, V>(es: Entries<K, V>, p: ((K, V)) -> bool)
    requires DistinctKeys(es)
    ensures DistinctKeys(RemoveIf(es, p))
  {
    if es != [] {
      var t := RemoveIf(es[1..], p);
      assert DistinctKeys(es[1..]);
      RemoveIfDistinct(es[1..], p);
      RemoveIfMembers(es[1..], p);
      if !p(es[0]) {
        forall j | 0 <= j < |t| ensures t[j].0 != es[0].0 {
          var e := t[j];
          assert e in t;
          assert e in es[1..];
          var i :| 0 <= i < |es[1..]| && es[1..][i] == e;
          assert es[i + 1] == e;
        }
      }
    }
  }

  /** A value is among the values exactly when some key maps to it. */
  lemma ValuesMeaning<K, V>(es: Entries<K, V>, v: V)
    requires DistinctKeys(es)
    ensures v in Values(es) <==> exists k :: k in Keys(es) && Get(es, k) == Some(v)
  {
    if v in Values(es) {
      var i :| 0 <= i < |es| && Values(es)[i] == v;
      GetMeaning(es, es[i].0);
    }
    if exists k :: k in Keys(es) && Get(es, k) == Some(v) {
      var k :| k in Keys(es) && Get(es, k) == Some(v);
      assert Values(es)[IndexOf(es, k)] == v;
    }
  }

  /** The entries and their mapping agree: same keys, same values, one entry per key. */
  lemma AsMapMeaning<K, V>(es: Entries<K, V>)
    requires DistinctKeys(es)
    ensures AsMap(es).Keys == Keys(es)
    ensures forall k :: k in Keys(es) ==> Get(es, k) == Some(AsMap(es)[k])
    ensures |Keys(es)| == |es|
  {
    forall k | k in Keys(es) ensures Get(es, k).Some? { GetMeaning(es, k); }
    KeysCount(es);
  }

  lemma {:induction false} KeysCount<K, V>(es: Entries<K, V>)
    requires DistinctKeys(es)
    ensures |Keys(es)| == |es|
  {
    if es != [] {
      var t := es[1..];
      assert DistinctKeys(t);
      KeysCount(t);
      assert Keys(es) == {es[0].0} + Keys(t) by {
        forall x | x in Keys(es) ensures x in {es[0].0} + Keys(t) {
          var i :| 0 <= i < |es| && es[i].0 == x;
          if i > 0 { assert t[i - 1].0 == x; }
        }
      }
      assert es[0].0 !in Keys(t);
    }
  }

  /** After putAll, a key of m maps to its last value in m, and every other key keeps its value. */
  lemma {:induction false} PutAllMeaning<K, V>(es: Entries<K, V>, m: Entries<K, V>, k: K)
    requires DistinctKeys(es)
    ensures DistinctKeys(PutAll(es, m))
    ensures Get(PutAll(es, m), k) == if Get(Reverse(m), k).Some? then Get(Reverse(m), k) else Get(es, k)
    decreases |m|
  {
    if m != [] {
      PutMeaning(es, m[0].0, m[0].1, k);
      PutAllMeaning(Put(es, m[0].0, m[0].1), m[1..], k);
      ReverseCons(m, k);
    }
  }

  /** On the mapping the entries stand for, put is map update. */
  lemma PutAsMap<K, V>(es: Entries<K, V>, k: K, v: V)
    requires DistinctKeys(es)
    ensures AsMap(Put(es, k, v)) == AsMap(es)[k := v]
  {
    var r := Put(es, k, v);
    PutMeaning(es, k, v, k);
    var m, mr := AsMap(es), AsMap(r);
    forall x | x in Keys(r)
      ensures mr[x] == m[k := v][x]
    {
      PutMeaning(es, k, v, x);
      GetMeaning(r, x);
      GetMeaning(es, x);
    }
    assert mr.Keys == m[k := v].Keys;
  }

  /** On the mapping the entries stand for, remove is key removal. */
  lemma RemoveAsMap<K, V>(es: Entries<K, V>, k: K)
    requires DistinctKeys(es)
    ensures AsMap(RemoveKey(es, k)) == AsMap(es) - {k}
  {
    var d := RemoveKey(es, k);
    RemoveKeyMeaning(es, k, k);
    var m, md := AsMap(es), AsMap(d);
    forall x | x in Keys(d)
      ensures md[x] == (m - {k})[x]
    {
      RemoveKeyMeaning(es, k, x);
      GetMeaning(d, x);
      GetMeaning(es, x);
    }
    assert md.Keys == (m - {k}).Keys;
  }

  /** The value view repeats a value exactly when two keys map to it. */
  lemma ValuesRepeat<K, V>(es: Entries<K, V>)
    requires DistinctKeys(es)
    ensures (exists i, j :: 0 <= i < j < |Values(es)| && Values(es)[i] == Values(es)[j]) <==>
            (exists k1, k2 :: k1 != k2 && Get(es, k1).Some? && Get(es, k1) == Get(es, k2))
  {
    if exists i, j :: 0 <= i < j < |Values(es)| && Values(es)[i] == Values(es)[j] {
      var i, j :| 0 <= i < j < |Values(es)| && Values(es)[i] == Values(es)[j];
      GetMeaning(es, es[i].0);
      GetMeaning(es, es[j].0);
      assert es[i].0 != es[j].0;
    }
    if exists k1, k2 :: k1 != k2 && Get(es, k1).Some? && Get(es, k1) == Get(es, k2) {
      var k1, k2 :| k1 != k2 && Get(es, k1).Some? && Get(es, k1) == Get(es, k2);
      var i, j := IndexOf(es, k1), IndexOf(es, k2);
      assert Values(es)[i] == Values(es)[j];
      if i < j {
        assert 0 <= i < j < |Values(es)|;
      } else {
        assert 0 <= j < i < |Values(es)|;
      }
    }
  }

  /** replaceAll keeps the keys and the order. */
  lemma MapValuesKeepsKeys<K, V>(es: Entries<K, V>, f: (K, V) -> V)
    requires DistinctKeys(es)
    ensures DistinctKeys(MapValues(es, f)) && Keys(MapValues(es, f)) == Keys(es)
  {
    var r := MapValues(es, f);
    assert forall i :: 0 <= i < |es| ==> r[i].0 == es[i].0;
    assert Keys(r) == Keys(es) by {
      forall x | x in Keys(es) ensures x in Keys(r) { var i :| 0 <= i < |es| && es[i].0 == x; assert r[i].0 == x; }
    }
  }

  /** replaceAll changes each value through f. */
  lemma MapValuesMeaning<K, V>(es: Entries<K, V>, f: (K, V) -> V, k: K)
    requires DistinctKeys(es)
    ensures Get(MapValues(es, f), k) == if Get(es, k).Some? then Some(f(k, Get(es, k).value)) else None
  {
    var r := MapValues(es, f);
    assert forall i :: 0 <= i < |es| ==> r[i].0 == es[i].0;
    IndexOfSameKeys(r, es, k);
  }

  lemma {:induction false} IndexOfSameKeys<K, V>(a: Entries<K, V>, b: Entries<K, V>, k: K)
    requires |a| == |b| && forall i :: 0 <= i < |a| ==> a[i].0 == b[i].0
    ensures IndexOf(a, k) == IndexOf(b, k)
  {
    if a != [] {
      IndexOfSameKeys(a[1..], b[1..], k);
    }
  }

  /** The entries in the opposite order, so that the first match of a key is its last occurrence. */
  function Reverse<K, V>(m: Entries<K, V>): Entries<K, V>
  {
    if m == [] then [] else Reverse(m[1..]) + [m[0]]
  }

  lemma {:induction false} IndexOfAppend<K, V>(a: Entries<K, V>, b: Entries<K, V>, k: K)
    ensures IndexOf(a + b, k) == if IndexOf(a, k) < |a| then IndexOf(a, k) else |a| + IndexOf(b, k)
  {
    if a != [] {
      assert (a + b)[1..] == a[1..] + b;
      IndexOfAppend(a[1..], b, k);
    } else {
      assert a + b == b;
    }
  }

  lemma ReverseCons<K, V>(m: Entries<K, V>, k: K)
    requires m != []
    ensures Get(Reverse(m), k) == if Get(Reverse(m[1..]), k).Some? then Get(Reverse(m[1..]), k) else if m[0].0 == k then Some(m[0].1) else None
  {
    var t := Reverse(m[1..]);
    IndexOfAppend(t, [m[0]], k);
  }
}
