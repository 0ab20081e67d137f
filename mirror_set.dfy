/**
 * util/MirrorSet.java: a live, set-shaped view of a map's values.  It holds
 * no state of its own: every query reads the shared map object, and its
 * removals delete entries from it.
 */
module MirrorSet {
  import opened Base
  import opened OrderedMap

  /** The removal test as written: the same value, or a value with the same hash code. */
  function MatchesAsWritten<K, T(==)>(o: T, hash: T -> int): ((K, T)) -> bool
  {
    (e: (K, T)) => e.1 == o || hash(e.1) == hash(o)
  }

  /** The removal test a Set promises: a value equal to o. */
  function MatchesEqual<K, T(==)>(o: T): ((K, T)) -> bool
  {
    (e: (K, T)) => e.1 == o
  }

  class MirrorSet<K(==), T(==)> {
    const backing: MapObject<K, T>

    /** MirrorSet.of(map) and new MirrorSet(map). */
    constructor (backing: MapObject<K, T>)
      ensures this.backing == backing
    {
      this.backing := backing;
    }

    function Size(): nat
      reads backing
    {
      |backing.entries|
    }

    predicate IsEmpty()
      reads backing
    {
      backing.entries == []
    }

    /** contains(o) is the map's containsValue(o). */
    predicate Contains(o: T)
      reads backing
    {
      o in Values(backing.entries)
    }

    /** toArray(): the map's values. */
    function ToArray(): seq<T>
      reads backing
    {
      Values(backing.entries)
    }

    predicate ContainsAll(c: seq<T>)
      reads backing
    {
      forall i :: 0 <= i < |c| ==> c[i] in Values(backing.entries)
    }

    /** add and addAll: the view cannot grow. */
    function Add(t: T): (r: Result<bool>)
      ensures r.Err? && r.error == UnsupportedOperation
    {
      Err(UnsupportedOperation)
    }

    function AddAll(c: seq<T>): (r: Result<bool>)
      ensures r.Err? && r.error == UnsupportedOperation
    {
      Err(UnsupportedOperation)
    }

    /** remove(o) as written: deletes every entry whose value is o or shares its hash code. */
    method RemoveAsWritten(o: T, hash: T -> int) returns (changed: bool)
      modifies backing
      ensures backing.entries == RemoveIf(old(backing.entries), MatchesAsWritten(o, hash))
      ensures changed <==> |backing.entries| < |old(backing.entries)|
    {
      var before := backing.entries;
      backing.entries := RemoveIf(before, MatchesAsWritten(o, hash));
      RemoveIfMeaning(before, MatchesAsWritten(o, hash));
      changed := |backing.entries| < |before|;
    }

    /** remove(o) as a Set promises it: deletes the entries whose value is o, and no other. */
    method Remove(o: T) returns (changed: bool)
      requires backing.Valid()
      modifies backing
      ensures backing.Valid()
      ensures backing.entries == RemoveIf(old(backing.entries), MatchesEqual(o))
      ensures !Contains(o)
      ensures changed <==> old(Contains(o))
    {
      var before := backing.entries;
      backing.entries := RemoveIf(before, MatchesEqual(o));
      RemoveIfMeaning(before, MatchesEqual(o));
      RemovedValueIsGone(before, o);
      changed := |backing.entries| < |before|;
      if o in Values(before) {
        var i :| 0 <= i < |before| && Values(before)[i] == o;
        assert MatchesEqual(o)(before[i]);
      }
      if exists i :: 0 <= i < |before| && MatchesEqual(o)(before[i]) {
        var i :| 0 <= i < |before| && MatchesEqual(o)(before[i]);
        assert Values(before)[i] == o;
      }
    }

    /** retainAll(c): keeps exactly the entries whose value is in c. */
    method RetainAll(c: seq<T>) returns (changed: bool)
      requires backing.Valid()
      modifies backing
      ensures backing.Valid()
      ensures backing.entries == RemoveIf(old(backing.entries), (e: (K, T)) => e.1 !in c)
      ensures changed <==> |backing.entries| < |old(backing.entries)|
    {
      var before := backing.entries;
      backing.entries := RemoveIf(before, (e: (K, T)) => e.1 !in c);
      RemoveIfMeaning(before, (e: (K, T)) => e.1 !in c);
      changed := |backing.entries| < |before|;
    }

    /** removeAll(c): deletes exactly the entries whose value is in c. */
    method RemoveAll(c: seq<T>) returns (changed: bool)
      requires backing.Valid()
      modifies backing
      ensures backing.Valid()
      ensures backing.entries == RemoveIf(old(backing.entries), (e: (K, T)) => e.1 in c)
      ensures changed <==> |backing.entries| < |old(backing.entries)|
    {
      var before := backing.entries;
      backing.entries := RemoveIf(before, (e: (K, T)) => e.1 in c);
      RemoveIfMeaning(before, (e: (K, T)) => e.1 in c);
      changed := |backing.entries| < |before|;
    }

    /** clear() empties the map. */
    method Clear()
      modifies backing
      ensures backing.entries == [] && backing.Valid()
    {
      backing.entries := [];
    }

    /** iterator(): a fresh cursor over the map's entries. */
    method Iterator() returns (it: MirrorIterator<K, T>)
      ensures fresh(it) && it.backing == backing && it.cursor == 0 && !it.canRemove
    {
      it := new MirrorIterator(backing);
    }
  }

  /**
   * MirrorSet.MirrorIterator: walks the entries in order, yields their values
   * and removes the last yielded entry on request.
   */
  class MirrorIterator<K(==), T(==)> {
    const backing: MapObject<K, T>
    var cursor: nat
    var canRemove: bool

    predicate Valid()
      reads this, backing
    {
      cursor <= |backing.entries| && (canRemove ==> cursor > 0)
    }

    constructor (backing: MapObject<K, T>)
      ensures this.backing == backing && cursor == 0 && !canRemove
    {
      this.backing := backing;
      cursor := 0;
      canRemove := false;
    }

    predicate HasNext()
      reads this, backing
    {
      cursor < |backing.entries|
    }

    /** The values that next() would still yield, in order. */
    function Remaining(): seq<T>
      requires Valid()
      reads this, backing
    {
      Values(backing.entries[cursor..])
    }

    /** next(): the value of the entry under the cursor; NoSuchElementException at the end. */
    method Next() returns (r: Result<T>)
      requires Valid()
      modifies this
      ensures Valid()
      ensures old(HasNext()) ==>
        r == Ok(backing.entries[old(cursor)].1) && cursor == old(cursor) + 1 && canRemove
      ensures old(HasNext()) ==> [r.value] + Remaining() == old(Remaining())
      ensures !old(HasNext()) ==> r == Err(NoSuchElement) && cursor == old(cursor) && canRemove == old(canRemove)
    {
      if cursor < |backing.entries| {
        r := Ok(backing.entries[cursor].1);
        cursor := cursor + 1;
        canRemove := true;
        assert backing.entries[cursor - 1..] == [backing.entries[cursor - 1]] + backing.entries[cursor..];
      } else {
        r := Err(NoSuchElement);
      }
    }

    /** remove(): deletes the entry last yielded; IllegalStateException without one. */
    method Remove() returns (r: Result<()>)
      requires Valid()
      modifies this, backing
      ensures Valid()
      ensures old(canRemove) ==>
        r == Ok(()) && cursor == old(cursor) - 1 && !canRemove &&
        backing.entries == old(backing.entries[..cursor - 1] + backing.entries[cursor..])
      ensures old(canRemove) ==> Remaining() == old(Remaining())
      ensures !old(canRemove) ==> r == Err(IllegalState) && unchanged(this, backing)
    {
      if !canRemove {
        return Err(IllegalState);
      }
      var before := backing.entries;
      backing.entries := before[..cursor - 1] + before[cursor..];
      cursor := cursor - 1;
      canRemove := false;
      assert backing.entries[cursor..] == before[cursor + 1..];
      r := Ok(());
    }
  }

  /**
   * Over a map with distinct keys the view answers for the map's mapping:
   * one element per key, empty exactly without keys, and it contains, and
   * its array holds, exactly values some key maps to.
   */
  lemma ViewMirrorsMap<K, T>(s: MirrorSet<K, T>, o: T)
    requires s.backing.Valid()
    ensures s.Size() == |Keys(s.backing.entries)|
    ensures s.IsEmpty() <==> Keys(s.backing.entries) == {}
    ensures s.Contains(o) <==> exists k :: k in Keys(s.backing.entries) && Get(s.backing.entries, k) == Some(o)
    ensures |s.ToArray()| == s.Size()
    ensures forall i :: 0 <= i < |s.ToArray()| ==>
      exists k :: k in Keys(s.backing.entries) && Get(s.backing.entries, k) == Some(s.ToArray()[i])
  {
    var es := s.backing.entries;
    KeysCount(es);
    ValuesMeaning(es, o);
    forall i | 0 <= i < |s.ToArray()|
      ensures exists k :: k in Keys(es) && Get(es, k) == Some(s.ToArray()[i])
    {
      ValuesMeaning(es, s.ToArray()[i]);
    }
    if es != [] {
      assert es[0].0 in Keys(es);
    }
  }

  /** After removing the entries equal to o, no value o remains. */
  lemma RemovedValueIsGone<K, T>(es: Entries<K, T>, o: T)
    ensures o !in Values(RemoveIf(es, MatchesEqual(o)))
  {
    RemoveIfMeaning(es, MatchesEqual(o));
    var r := RemoveIf(es, MatchesEqual(o));
    forall i | 0 <= i < |r| ensures Values(r)[i] != o {
      assert r[i] in r;
    }
  }

  /**
   * String.hashCode: h = 31 * h + c over the characters, in 32-bit int
   * arithmetic (characters below U+10000 are single UTF-16 code units).
   */
  function StringHashCode(s: string): int
  {
    if s == [] then 0 else Wrap32(31 * StringHashCode(s[..|s| - 1]) + s[|s| - 1] as int)
  }

  /**
   * The hash-code test removes values that merely collide with o: "Aa" and
   * "BB" are different strings with the same String.hashCode, 2112, so
   * removing one deletes both.
   */
  lemma RemoveAsWrittenDropsCollisions()
    ensures StringHashCode("Aa") == StringHashCode("BB") == 2112
    ensures var es: Entries<int, string> := [(1, "Aa"), (2, "BB")];
      RemoveIf(es, MatchesAsWritten("Aa", StringHashCode)) == [] &&
      RemoveIf(es, MatchesEqual("Aa")) == [(2, "BB")]
  {
    assert "Aa"[..1] == "A" && "BB"[..1] == "B" && "A"[..0] == "" && "B"[..0] == "";
    assert StringHashCode("A") == 65 && StringHashCode("B") == 66;
    var es: Entries<int, string> := [(1, "Aa"), (2, "BB")];
    assert es[1..][1..] == [];
    assert es[1..] == [(2, "BB")];
  }
}
