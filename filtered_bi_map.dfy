/**
 * v2_1/util/FilteredBiMap.java: a read-only view of a Guava BiMap that
 * shows only the entries whose value passes a predicate.  Its mutators are
 * stubs that change nothing and answer null or false.
 */
module FilteredBiMap {
  import opened Base

  /** A BiMap: no two keys share a value. */
  ghost predicate IsBiMap<K, V>(m: map<K, V>)
  {
    forall a, b :: a in m && b in m && a != b ==> m[a] != m[b]
  }

  /** FilteredBiMap.of(backing, predicate) and the constructor: the view keeps both. */
  datatype FilteredBiMap<K(==), !V(==)> = FilteredBiMap(backing: map<K, V>, test: V -> bool)
  {
    /** size(): the number of backing values that pass. */
    function Size(): nat
    {
      |set v | v in backing.Values && test(v)|
    }

    predicate IsEmpty()
    {
      |backing| == 0 || Size() == 0
    }

    predicate ContainsKey(k: K)
    {
      k in backing && test(backing[k])
    }

    predicate ContainsValue(v: V)
    {
      v in backing.Values && test(v)
    }

    /** get(k): the backing value when it passes, otherwise null. */
    function Get(k: K): Option<V>
    {
      if k !in backing then None
      else if test(backing[k]) then Some(backing[k])
      else None
    }

    /** The stubs: put, remove, forcePut, putIfAbsent, replace, getOrDefault and the compute family answer null. */
    function Put(k: K, v: V): Option<V> { None }
    function Remove(k: K): Option<V> { None }
    function ForcePut(k: K, v: V): Option<V> { None }
    function PutIfAbsent(k: K, v: V): Option<V> { None }
    function Replace(k: K, v: V): Option<V> { None }
    function GetOrDefault(k: K, def: V): Option<V> { None }
    function ComputeIfAbsent(k: K, f: K -> Option<V>): Option<V> { None }
    function ComputeIfPresent(k: K, f: (K, V) -> Option<V>): Option<V> { None }
    function Compute(k: K, f: (K, Option<V>) -> Option<V>): Option<V> { None }
    function Merge(k: K, v: V, f: (V, V) -> Option<V>): Option<V> { None }
    /** remove(k, v) and replace(k, oldValue, newValue) answer false. */
    predicate RemoveMapping(k: K, v: V) { false }
    predicate ReplaceMapping(k: K, oldValue: V, newValue: V) { false }
    /** putAll, clear, forEach and replaceAll do nothing: the view after them is the view before. */
    function PutAll(m: map<K, V>): FilteredBiMap<K, V> { this }
    function Clear(): FilteredBiMap<K, V> { this }
    function ReplaceAll(f: (K, V) -> V): FilteredBiMap<K, V> { this }
  }

  /** The keys whose value passes. */
  function PassingKeys<K, V>(f: FilteredBiMap<K, V>): set<K>
  {
    set k | k in f.backing && f.test(f.backing[k])
  }

  /**
   * Because a BiMap's values are distinct, the size is also the number of
   * keys that containsKey accepts.
   */
  lemma SizeCountsKeys<K, V>(f: FilteredBiMap<K, V>)
    requires IsBiMap(f.backing)
    ensures f.Size() == |PassingKeys(f)|
    ensures f.Size() <= |f.backing|
  {
    var s := PassingKeys(f);
    assert (set v | v in f.backing.Values && f.test(v)) == Image(f.backing, s) by {
      forall v | v in f.backing.Values && f.test(v) ensures v in Image(f.backing, s) {
        var k :| k in f.backing && f.backing[k] == v;
        assert k in s;
      }
    }
    ImageSize(f.backing, s);
    assert s <= f.backing.Keys;
    SubsetSize(s, f.backing.Keys);
  }

  function Image<K, V>(m: map<K, V>, s: set<K>): set<V>
    requires s <= m.Keys
  {
    set k | k in s :: m[k]
  }

  lemma {:induction false} ImageSize<K, V>(m: map<K, V>, s: set<K>)
    requires s <= m.Keys && IsBiMap(m)
    ensures |Image(m, s)| == |s|
    decreases |s|
  {
    if s != {} {
      var x :| x in s;
      var t := s - {x};
      ImageSize(m, t);
      assert Image(m, s) == Image(m, t) + {m[x]};
      assert m[x] !in Image(m, t);
    }
  }

  lemma {:induction false} SubsetSize<K>(a: set<K>, b: set<K>)
    requires a <= b
    ensures |a| <= |b|
    decreases |b|
  {
    if a != {} {
      var x :| x in a;
      SubsetSize(a - {x}, b - {x});
    }
  }

  /** isEmpty() holds exactly when no value passes. */
  lemma IsEmptyMeaning<K, V>(f: FilteredBiMap<K, V>)
    ensures f.IsEmpty() <==> f.Size() == 0
  {
    if |f.backing| == 0 {
      assert f.backing.Values == {};
      assert (set v | v in f.backing.Values && f.test(v)) == {};
    }
  }

  /** get answers exactly for the keys containsKey accepts, and what it answers is a value containsValue accepts. */
  lemma GetMeaning<K, V>(f: FilteredBiMap<K, V>, k: K, v: V)
    ensures f.Get(k).Some? <==> f.ContainsKey(k)
    ensures f.Get(k) == Some(v) <==> k in f.backing && f.backing[k] == v && f.test(v)
    ensures f.Get(k) == Some(v) ==> f.ContainsValue(v)
    ensures f.ContainsValue(v) <==> exists key :: key in f.backing && f.Get(key) == Some(v)
  {
    if f.ContainsValue(v) {
      var key :| key in f.backing && f.backing[key] == v;
      assert f.Get(key) == Some(v);
    }
  }

  /** A view that filters nothing out shows the whole backing map. */
  lemma AcceptAllShowsEverything<K, V>(m: map<K, V>, k: K)
    ensures FilteredBiMap(m, (v: V) => true).Get(k) == (if k in m then Some(m[k]) else None)
    ensures FilteredBiMap(m, (v: V) => true).Size() == |m.Values|
  {
    var f := FilteredBiMap(m, (v: V) => true);
    assert (set v | v in m.Values && f.test(v)) == m.Values;
  }

  /** Every stub answers null or false, and the do-nothing mutators leave the view as it was. */
  lemma StubsAnswerNothing<K, V>(f: FilteredBiMap<K, V>, k: K, v: V, m: map<K, V>)
    ensures f.Put(k, v).None? && f.Remove(k).None? && f.ForcePut(k, v).None? && f.PutIfAbsent(k, v).None?
    ensures f.Replace(k, v).None? && f.GetOrDefault(k, v).None?
    ensures !f.RemoveMapping(k, v) && !f.ReplaceMapping(k, v, v)
    ensures f.PutAll(m) == f && f.Clear() == f
  {
  }
}
