/**
 * util/MirrorMap.java: a Map that forwards every operation to a backing map
 * it obtains once from a factory, plus a value-set view over that same map.
 */
module MirrorMap {
  import opened Base
  import opened OrderedMap
  import MirrorSet

  class MirrorMap<K(==), V(==)> {
    const backing: MapObject<K, V>
    const mirror: MirrorSet.MirrorSet<K, V>

    /** The view is over the backing map itself, and the backing map has distinct keys. */
    predicate Valid()
      reads this, backing
    {
      mirror.backing == backing && backing.Valid()
    }

    /** new MirrorMap(factory): `made` is the map the factory returned. */
    constructor (made: MapObject<K, V>)
      requires made.Valid()
      ensures backing == made && Valid() && fresh(mirror)
    {
      backing := made;
      mirror := new MirrorSet.MirrorSet(made);
    }

    function Size(): nat reads backing { |backing.entries| }
    predicate IsEmpty() reads backing { backing.entries == [] }
    predicate ContainsKey(k: K) reads backing { k in Keys(backing.entries) }
    predicate ContainsValue(v: V) reads backing { v in Values(backing.entries) }
    function Get(k: K): Option<V> reads backing { OrderedMap.Get(backing.entries, k) }
    function GetOrDefault(k: K, def: V): V reads backing { var g := OrderedMap.Get(backing.entries, k); if g.Some? then g.value else def }
    function KeySet(): set<K> reads backing { Keys(backing.entries) }
    function ValuesView(): seq<V> reads backing { Values(backing.entries) }
    function EntrySet(): Entries<K, V> reads backing { backing.entries }

    /** equals(o): the backing map's equality, same mappings. */
    predicate Equals(other: map<K, V>) reads backing { AsMap(backing.entries) == other }

    /** valueSet(): always the one view made by the constructor. */
    function ValueSet(): MirrorSet.MirrorSet<K, V> { mirror }

    method Put(k: K, v: V) returns (previous: Option<V>)
      requires Valid()
      modifies backing
      ensures Valid()
      ensures previous == OrderedMap.Get(old(backing.entries), k)
      ensures backing.entries == OrderedMap.Put(old(backing.entries), k, v)
    {
      previous := OrderedMap.Get(backing.entries, k);
      PutMeaning(backing.entries, k, v, k);
      backing.entries := OrderedMap.Put(backing.entries, k, v);
    }

    method Remove(k: K) returns (previous: Option<V>)
      requires Valid()
      modifies backing
      ensures Valid()
      ensures previous == OrderedMap.Get(old(backing.entries), k)
      ensures backing.entries == RemoveKey(old(backing.entries), k)
    {
      previous := OrderedMap.Get(backing.entries, k);
      RemoveKeyMeaning(backing.entries, k, k);
      backing.entries := RemoveKey(backing.entries, k);
    }

    /** putAll(m): m's entries put in m's order. */
    method PutAll(m: Entries<K, V>)
      requires Valid()
      modifies backing
      ensures Valid()
      ensures backing.entries == OrderedMap.PutAll(old(backing.entries), m)
    {
      var i := 0;
      while i < |m|
        invariant 0 <= i <= |m|
        invariant Valid()
        invariant OrderedMap.PutAll(backing.entries, m[i..]) == OrderedMap.PutAll(old(backing.entries), m)
      {
        assert m[i..][1..] == m[i + 1..];
        PutMeaning(backing.entries, m[i].0, m[i].1, m[i].0);
        backing.entries := OrderedMap.Put(backing.entries, m[i].0, m[i].1);
        i := i + 1;
      }
    }

    method Clear()
      requires Valid()
      modifies backing
      ensures Valid() && backing.entries == []
    {
      backing.entries := [];
    }

    /** putIfAbsent(k, v): stores v only for a missing key and returns the value found. */
    method PutIfAbsent(k: K, v: V) returns (found: Option<V>)
      requires Valid()
      modifies backing
      ensures Valid()
      ensures found == OrderedMap.Get(old(backing.entries), k)
      ensures backing.entries == if found.None? then OrderedMap.Put(old(backing.entries), k, v) else old(backing.entries)
    {
      found := OrderedMap.Get(backing.entries, k);
      if found.None? {
        PutMeaning(backing.entries, k, v, k);
        backing.entries := OrderedMap.Put(backing.entries, k, v);
      }
    }

    /** remove(k, v): removes the entry only when k maps to v. */
    method RemoveMapping(k: K, v: V) returns (removed: bool)
      requires Valid()
      modifies backing
      ensures Valid()
      ensures removed <==> OrderedMap.Get(old(backing.entries), k) == Some(v)
      ensures backing.entries == if removed then RemoveKey(old(backing.entries), k) else old(backing.entries)
    {
      removed := OrderedMap.Get(backing.entries, k) == Some(v);
      if removed {
        RemoveKeyMeaning(backing.entries, k, k);
        backing.entries := RemoveKey(backing.entries, k);
      }
    }

    /** replace(k, oldValue, newValue): replaces only when k maps to oldValue. */
    method ReplaceMapping(k: K, oldValue: V, newValue: V) returns (replaced: bool)
      requires Valid()
      modifies backing
      ensures Valid()
      ensures replaced <==> OrderedMap.Get(old(backing.entries), k) == Some(oldValue)
      ensures backing.entries == if replaced then OrderedMap.Put(old(backing.entries), k, newValue) else old(backing.entries)
    {
      replaced := OrderedMap.Get(backing.entries, k) == Some(oldValue);
      if replaced {
        PutMeaning(backing.entries, k, newValue, k);
        backing.entries := OrderedMap.Put(backing.entries, k, newValue);
      }
    }

    /** replace(k, v): replaces only a present key and returns its former value. */
    method Replace(k: K, v: V) returns (previous: Option<V>)
      requires Valid()
      modifies backing
      ensures Valid()
      ensures previous == OrderedMap.Get(old(backing.entries), k)
      ensures backing.entries == if previous.Some? then OrderedMap.Put(old(backing.entries), k, v) else old(backing.entries)
    {
      previous := OrderedMap.Get(backing.entries, k);
      if previous.Some? {
        PutMeaning(backing.entries, k, v, k);
        backing.entries := OrderedMap.Put(backing.entries, k, v);
      }
    }

    /** computeIfAbsent(k, f): for a missing key stores f(k) unless it is null; returns the value now held. */
    method ComputeIfAbsent(k: K, f: K -> Option<V>) returns (r: Option<V>)
      requires Valid()
      modifies backing
      ensures Valid()
      ensures var g := OrderedMap.Get(old(backing.entries), k);
        r == (if g.Some? then g else f(k)) &&
        backing.entries == if g.None? && f(k).Some? then OrderedMap.Put(old(backing.entries), k, f(k).value) else old(backing.entries)
    {
      r := OrderedMap.Get(backing.entries, k);
      if r.None? {
        r := f(k);
        if r.Some? {
          PutMeaning(backing.entries, k, r.value, k);
          backing.entries := OrderedMap.Put(backing.entries, k, r.value);
        }
      }
    }

    /** computeIfPresent(k, f): for a present key stores f(k, v), removing the key when that is null. */
    method ComputeIfPresent(k: K, f: (K, V) -> Option<V>) returns (r: Option<V>)
      requires Valid()
      modifies backing
      ensures Valid()
      ensures var g := OrderedMap.Get(old(backing.entries), k);
        r == (if g.Some? then f(k, g.value) else None) &&
        backing.entries == if g.Some? then PutOrRemove(old(backing.entries), k, r) else old(backing.entries)
    {
      var g := OrderedMap.Get(backing.entries, k);
      r := None;
      if g.Some? {
        r := f(k, g.value);
        PutMeaning(backing.entries, k, g.value, k);
        RemoveKeyMeaning(backing.entries, k, k);
        backing.entries := PutOrRemove(backing.entries, k, r);
      }
    }

    /** compute(k, f): stores f(k, current), removing the key when that is null. */
    method Compute(k: K, f: (K, Option<V>) -> Option<V>) returns (r: Option<V>)
      requires Valid()
      modifies backing
      ensures Valid()
      ensures r == f(k, OrderedMap.Get(old(backing.entries), k))
      ensures backing.entries == PutOrRemove(old(backing.entries), k, r)
    {
      r := f(k, OrderedMap.Get(backing.entries, k));
      if r.Some? {
        PutMeaning(backing.entries, k, r.value, k);
      } else {
        RemoveKeyMeaning(backing.entries, k, k);
      }
      backing.entries := PutOrRemove(backing.entries, k, r);
    }

    /** merge(k, v, f): stores v for a missing key, otherwise f(current, v), removing the key when that is null. */
    method Merge(k: K, v: V, f: (V, V) -> Option<V>) returns (r: Option<V>)
      requires Valid()
      modifies backing
      ensures Valid()
      ensures var g := OrderedMap.Get(old(backing.entries), k);
        r == (if g.None? then Some(v) else f(g.value, v)) &&
        backing.entries == PutOrRemove(old(backing.entries), k, r)
    {
      var g := OrderedMap.Get(backing.entries, k);
      r := if g.None? then Some(v) else f(g.value, v);
      if r.Some? {
        PutMeaning(backing.entries, k, r.value, k);
      } else {
        RemoveKeyMeaning(backing.entries, k, k);
      }
      backing.entries := PutOrRemove(backing.entries, k, r);
    }

    /** replaceAll(f). */
    method ReplaceAll(f: (K, V) -> V)
      requires Valid()
      modifies backing
      ensures Valid()
      ensures backing.entries == MapValues(old(backing.entries), f)
    {
      MapValuesKeepsKeys(backing.entries, f);
      backing.entries := MapValues(backing.entries, f);
    }
  }

  /**
   * The read operations agree as the Map contract says: size() counts the
   * keys, containsKey(k) is a non-null get(k), and containsValue(v) is some
   * key's value.
   */
  lemma AccessorsAgree<K, V>(m: MirrorMap<K, V>, k: K, v: V)
    requires m.Valid()
    ensures m.Size() == |m.KeySet()|
    ensures m.IsEmpty() <==> m.KeySet() == {}
    ensures m.ContainsKey(k) <==> m.Get(k).Some?
    ensures m.ContainsValue(v) <==> exists x :: m.Get(x) == Some(v)
  {
    var es := m.backing.entries;
    AsMapMeaning(es);
    OrderedMap.GetMeaning(es, k);
    ValuesMeaning(es, v);
    if m.ContainsValue(v) {
      var x :| x in Keys(es) && OrderedMap.Get(es, x) == Some(v);
      assert m.Get(x) == Some(v);
    }
    if exists x :: m.Get(x) == Some(v) {
      var x :| m.Get(x) == Some(v);
      OrderedMap.GetMeaning(es, x);
    }
    if es != [] {
      assert es[0].0 in Keys(es);
    }
  }

  /** equals(o) holds exactly for the mapping get() answers. */
  lemma EqualsAgrees<K, V>(m: MirrorMap<K, V>, other: map<K, V>)
    requires m.Valid()
    ensures m.Equals(other) <==> (m.KeySet() == other.Keys && forall x :: x in other ==> m.Get(x) == Some(other[x]))
  {
    var es := m.backing.entries;
    AsMapMeaning(es);
    if m.KeySet() == other.Keys && forall x :: x in other ==> m.Get(x) == Some(other[x]) {
      assert AsMap(es) == other;
    }
  }

  /**
   * The value-set view reflects the map: its size is the map's size, and it
   * contains exactly the map's values, whatever changes were made since it
   * was handed out.
   */
  lemma ViewMirrorsMap<K, V>(m: MirrorMap<K, V>, v: V)
    requires m.Valid()
    ensures m.ValueSet().Size() == m.Size()
    ensures m.ValueSet().IsEmpty() <==> m.IsEmpty()
    ensures m.ValueSet().Contains(v) <==> m.ContainsValue(v)
    ensures m.ValueSet().ToArray() == m.ValuesView()
  {
  }
}
