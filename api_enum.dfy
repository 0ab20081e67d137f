/**
 * ApiEnum: the serialised-name codec shared by every API enum type
 * (api/enums/ApiEnum.java).  An enum type is given by its constants in
 * declaration order (`values()`) and its `serialized()` function.
 */
module ApiEnum {
  import opened Base

  /** The reverse-map key of a constant: its serialised form, lowercased. */
  function Key<T>(ser: T -> string, e: T): string
  {
    Lower(ser(e))
  }

  /** No two constants share a reverse-map key. */
  predicate DistinctKeys<T>(values: seq<T>, ser: T -> string)
  {
    forall i, j :: 0 <= i < j < |values| ==> Key(ser, values[i]) != Key(ser, values[j])
  }

  /** m sends the key of every constant to that constant, and has no other keys. */
  ghost predicate Indexes<T>(values: seq<T>, ser: T -> string, m: map<string, T>)
  {
    && (forall i :: 0 <= i < |values| ==> Key(ser, values[i]) in m && m[Key(ser, values[i])] == values[i])
    && (forall k :: k in m ==> exists i :: 0 <= i < |values| && Key(ser, values[i]) == k)
  }

  /**
   * The stream built in revMapRaw: Collectors.toMap over the constants in
   * order, which throws IllegalStateException on a repeated key.
   */
  function RevMap<T>(values: seq<T>, ser: T -> string): (r: Result<map<string, T>>)
    ensures r.Ok? <==> DistinctKeys(values, ser)
    ensures r.Ok? ==> Indexes(values, ser, r.value)
    ensures r.Err? ==> r.error == IllegalState
    decreases |values|
  {
    if values == [] then Ok(map[])
    else
      var init := values[..|values| - 1];
      var k := Key(ser, values[|values| - 1]);
      var m := RevMap(init, ser);
      DistinctKeysSnoc(values, ser);
      if m.Err? then m
      else if k in m.value then Err(IllegalState)
      else
        assert forall i :: 0 <= i < |init| ==> init[i] == values[i];
        Ok(m.value[k := values[|values| - 1]])
  }

  /** Keys stay distinct when a constant is appended exactly when its key is new. */
  lemma DistinctKeysSnoc<T>(values: seq<T>, ser: T -> string)
    requires |values| > 0
    ensures var init, k := values[..|values| - 1], Key(ser, values[|values| - 1]);
      DistinctKeys(values, ser) <==>
        DistinctKeys(init, ser) && forall i :: 0 <= i < |init| ==> Key(ser, init[i]) != k
  {
    var init := values[..|values| - 1];
    assert forall i :: 0 <= i < |init| ==> init[i] == values[i];
  }

  /**
   * REV_MAPS restricted to one enum type: the reverse map is built on first
   * use and then served from the cache.
   */
  class Serialization<T> {
    const values: seq<T>
    const ser: T -> string
    var cached: Option<map<string, T>>

    /** The cache holds nothing but the map the stream builds. */
    ghost predicate Valid()
      reads this
    {
      cached.Some? ==> RevMap(values, ser) == Ok(cached.value)
    }

    constructor(values: seq<T>, ser: T -> string)
      ensures this.values == values && this.ser == ser
      ensures cached == None
      ensures Valid()
    {
      this.values := values;
      this.ser := ser;
      cached := None;
    }

    /** revMapRaw: the cached map, or a freshly built one that is then cached. */
    method RevMapRaw() returns (r: Result<map<string, T>>)
      requires Valid()
      modifies this
      ensures Valid()
      ensures r == RevMap(values, ser)
      ensures cached == if r.Ok? then Some(r.value) else old(cached)
    {
      if cached.Some? {
        r := Ok(cached.value);
      } else {
        r := RevMap(values, ser);
        if r.Ok? {
          cached := Some(r.value);
        }
      }
    }
  }

  /** Map.get: null (None) for an absent key. */
  function Get<T>(m: map<string, T>, k: string): Option<T>
  {
    if k in m then Some(m[k]) else None
  }

  /** Serialization.orUnrecognized: the constant with the lowercased name, else the "unrecognized" entry (which may be absent). */
  function OrUnrecognized<T>(values: seq<T>, ser: T -> string, name: string): (r: Result<Option<T>>)
    ensures r.Err? <==> !DistinctKeys(values, ser)
    ensures r.Err? ==> r.error == IllegalState
    ensures r.Ok? ==>
      || (exists i :: 0 <= i < |values| && Key(ser, values[i]) == Lower(name) && r.value == Some(values[i]))
      || ((forall i :: 0 <= i < |values| ==> Key(ser, values[i]) != Lower(name)) && r.value == Get(RevMap(values, ser).value, "unrecognized"))
  {
    var m := RevMap(values, ser);
    if m.Err? then Err(m.error)
    else if Lower(name) in m.value then Ok(Some(m.value[Lower(name)]))
    else Ok(Get(m.value, "unrecognized"))
  }

  /** The JSON tokens the adapter meets or emits. */
  datatype Token = NullToken | NameToken(name: string) | StringToken(text: string) | OtherToken

  /** The type adapter, created once per type from its reverse map. */
  datatype Adapter<T> = Adapter(revMap: map<string, T>, unrecognized: Option<T>)

  function MakeAdapter<T>(values: seq<T>, ser: T -> string): (r: Result<Adapter<T>>)
    ensures r.Err? <==> !DistinctKeys(values, ser)
    ensures r.Err? ==> r.error == IllegalState
    ensures r.Ok? ==> Indexes(values, ser, r.value.revMap) && r.value.unrecognized == Get(r.value.revMap, "unrecognized")
  {
    var m := RevMap(values, ser);
    if m.Err? then Err(m.error) else Ok(Adapter(m.value, Get(m.value, "unrecognized")))
  }

  /** What `read` does to a name before the lookup: lowercase, then drop every "_". */
  function Normalise(s: string): string
  {
    StripUnderscores(Lower(s))
  }

  /** A lower-case text of two underscore-joined words normalises to the words run together. */
  lemma NormaliseTwoWords(text: string, a: string, b: string)
    requires text == a + "_" + b && '_' !in a && '_' !in b
    requires forall i :: 0 <= i < |text| ==> !IsUpper(text[i])
    ensures Normalise(text) == a + b
  {
    LowerOfLowercase(text);
    StripUnderscoresAt(a, b);
    StripUnderscoresMeaning(b);
  }

  /** The same for three words. */
  lemma NormaliseThreeWords(text: string, a: string, b: string, c: string)
    requires text == a + "_" + b + "_" + c && '_' !in a && '_' !in b && '_' !in c
    requires forall i :: 0 <= i < |text| ==> !IsUpper(text[i])
    ensures Normalise(text) == a + b + c
  {
    LowerOfLowercase(text);
    assert text == a + "_" + (b + "_" + c);
    StripUnderscoresAt(a, b + "_" + c);
    StripUnderscoresAt(b, c);
    StripUnderscoresMeaning(c);
  }

  /** TypeAdapter.read. */
  function Read<T>(a: Adapter<T>, t: Token): (r: Result<Option<T>>)
    ensures r.Err? <==> t.OtherToken?
    ensures r.Err? ==> r.error == IOError
    ensures t.NullToken? ==> r == Ok(None)
    ensures TokenText(t).Some? && r.value != a.unrecognized ==>
      var k := Normalise(TokenText(t).value); k in a.revMap && r.value == Some(a.revMap[k])
  {
    match t
    case NullToken => Ok(None)
    case OtherToken => Err(IOError)
    case NameToken(s) => Ok(if Normalise(s) in a.revMap then Some(a.revMap[Normalise(s)]) else a.unrecognized)
    case StringToken(s) => Ok(if Normalise(s) in a.revMap then Some(a.revMap[Normalise(s)]) else a.unrecognized)
  }

  /**
   * TypeAdapter.read on a reader standing at position pos of a token
   * stream: the value, and the position the reader is left at.  At the end
   * of the document peek() gives a token that is neither null, a name nor a
   * string.  A name or string is consumed; a null is returned without
   * nextNull(), so the reader is left standing on it.
   */
  function ReadAt<T>(a: Adapter<T>, ts: seq<Token>, pos: nat): (r: Result<(Option<T>, nat)>)
    ensures r.Err? <==> pos >= |ts| || ts[pos].OtherToken?
    ensures r.Err? ==> r.error == IOError
    ensures r.Ok? ==> r.value.0 == Read(a, ts[pos]).value
    ensures r.Ok? && ts[pos].NullToken? ==> r.value.1 == pos && ts[r.value.1] == NullToken
    ensures r.Ok? && !ts[pos].NullToken? ==> r.value.1 == pos + 1
  {
    if pos >= |ts| then Err(IOError)
    else
      var v := Read(a, ts[pos]);
      if v.Err? then Err(v.error) else Ok((v.value, if ts[pos].NullToken? then pos else pos + 1))
  }

  /** read as evidently intended: the same, except that a null is consumed (nextNull()) before null is returned. */
  function ReadAtIntended<T>(a: Adapter<T>, ts: seq<Token>, pos: nat): (r: Result<(Option<T>, nat)>)
    ensures r.Err? <==> pos >= |ts| || ts[pos].OtherToken?
    ensures r.Err? ==> r.error == IOError
    ensures r.Ok? ==> r.value.0 == Read(a, ts[pos]).value && r.value.1 == pos + 1
  {
    if pos >= |ts| then Err(IOError)
    else
      var v := Read(a, ts[pos]);
      if v.Err? then Err(v.error) else Ok((v.value, pos + 1))
  }

  /**
   * As written, reading a null field of an object, `"layout": null`
   * followed by another field, leaves the reader on the null, where the
   * object's reader expects the next field's name.
   */
  lemma NullFieldLeftUnread<T>(a: Adapter<T>, field: string, next: string)
    ensures var ts := [NameToken(field), NullToken, NameToken(next)];
      && ReadAt(a, ts, 1) == Ok((None, 1))
      && !ts[ReadAt(a, ts, 1).value.1].NameToken?
    ensures var ts := [NameToken(field), NullToken, NameToken(next)];
      ReadAtIntended(a, ts, 1) == Ok((None, 2)) && ts[ReadAtIntended(a, ts, 1).value.1] == NameToken(next)
  {
  }

  /** TypeAdapter.write: the serialised form, or JSON null. */
  function Write<T>(ser: T -> string, e: Option<T>): (r: Token)
    ensures r.NullToken? <==> e.None?
    ensures e.Some? ==> r.StringToken? && TokenText(r) == Some(ser(e.value))
  {
    if e.None? then NullToken else StringToken(ser(e.value))
  }

  /** The name a read token carries, if it is a name or a string. */
  function TokenText(t: Token): Option<string>
  {
    match t
    case NameToken(s) => Some(s)
    case StringToken(s) => Some(s)
    case _ => None
  }

  /**
   * `read` of JSON null is null, and of any other token that is not text an
   * IOException; the null is not consumed, so the reader still stands on it.
   */
  lemma ReadNonText<T>(a: Adapter<T>, ts: seq<Token>, pos: nat)
    requires pos < |ts| && TokenText(ts[pos]).None?
    ensures Read(a, ts[pos]) == if ts[pos].NullToken? then Ok(None) else Err(IOError)
    ensures ReadAt(a, ts, pos) == if ts[pos].NullToken? then Ok((None, pos)) else Err(IOError)
  {
  }

  /** `read` of a name or string decodes to the constant whose key is the normalised text. */
  lemma ReadKnown<T>(values: seq<T>, ser: T -> string, t: Token, i: nat)
    requires MakeAdapter(values, ser).Ok?
    requires TokenText(t).Some? && i < |values| && Key(ser, values[i]) == Normalise(TokenText(t).value)
    ensures Read(MakeAdapter(values, ser).value, t) == Ok(Some(values[i]))
  {
  }

  /** Both text tokens decode to the constant whose key is their normalised text. */
  lemma ReadKnownText<T>(values: seq<T>, ser: T -> string, text: string, i: nat)
    requires MakeAdapter(values, ser).Ok?
    requires i < |values| && Key(ser, values[i]) == Normalise(text)
    ensures Read(MakeAdapter(values, ser).value, StringToken(text)) == Ok(Some(values[i]))
    ensures Read(MakeAdapter(values, ser).value, NameToken(text)) == Ok(Some(values[i]))
  {
    ReadKnown(values, ser, StringToken(text), i);
    ReadKnown(values, ser, NameToken(text), i);
  }

  /** `read` of a text that is no constant's key decodes to the "unrecognized" entry, which may be null. */
  lemma ReadUnknown<T>(values: seq<T>, ser: T -> string, t: Token)
    requires MakeAdapter(values, ser).Ok?
    requires TokenText(t).Some?
    requires forall i :: 0 <= i < |values| ==> Key(ser, values[i]) != Normalise(TokenText(t).value)
    ensures Read(MakeAdapter(values, ser).value, t) == Ok(Get(RevMap(values, ser).value, "unrecognized"))
  {
  }

  /**
   * read(write(e)) == e for every constant whose key has no "_", and null
   * reads back as null.  Read from a stream, the written constant is
   * consumed, but the written null is left unread.
   */
  lemma ReadWriteRoundTrip<T>(values: seq<T>, ser: T -> string, e: Option<T>, rest: seq<Token>)
    requires MakeAdapter(values, ser).Ok?
    requires e.Some? ==> exists i :: 0 <= i < |values| && values[i] == e.value && '_' !in Key(ser, values[i])
    ensures Read(MakeAdapter(values, ser).value, Write(ser, e)) == Ok(e)
    ensures ReadAt(MakeAdapter(values, ser).value, [Write(ser, e)] + rest, 0) == Ok((e, if e.None? then 0 else 1))
  {
    if e.Some? {
      var i :| 0 <= i < |values| && values[i] == e.value && '_' !in Key(ser, values[i]);
      StripUnderscoresMeaning(Key(ser, values[i]));
      assert Normalise(ser(e.value)) == Key(ser, values[i]);
    }
  }

  /** With the intended read, the reader moves past exactly the one token write wrote, null included. */
  lemma ReadWriteRoundTripIntended<T>(values: seq<T>, ser: T -> string, e: Option<T>, rest: seq<Token>)
    requires MakeAdapter(values, ser).Ok?
    requires e.Some? ==> exists i :: 0 <= i < |values| && values[i] == e.value && '_' !in Key(ser, values[i])
    ensures ReadAtIntended(MakeAdapter(values, ser).value, [Write(ser, e)] + rest, 0) == Ok((e, 1))
  {
    ReadWriteRoundTrip(values, ser, e, rest);
  }


  /** orUnrecognized gives the constant whose key is the lowercased name, else the "unrecognized" entry. */
  lemma OrUnrecognizedMeaning<T>(values: seq<T>, ser: T -> string, name: string)
    requires DistinctKeys(values, ser)
    ensures forall i :: 0 <= i < |values| && Key(ser, values[i]) == Lower(name) ==>
      OrUnrecognized(values, ser, name) == Ok(Some(values[i]))
    ensures (forall i :: 0 <= i < |values| ==> Key(ser, values[i]) != Lower(name)) ==>
      OrUnrecognized(values, ser, name) == Ok(Get(RevMap(values, ser).value, "unrecognized"))
  {
    var m := RevMap(values, ser).value;
    if Lower(name) in m {
      var i :| 0 <= i < |values| && Key(ser, values[i]) == Lower(name);
    }
  }

  /** A name that is no constant's key gives the adapter's fallback, through orUnrecognized and through `read`. */
  lemma UnknownName<T>(values: seq<T>, ser: T -> string, name: string)
    requires DistinctKeys(values, ser)
    requires forall i :: 0 <= i < |values| ==> Key(ser, values[i]) != Lower(name)
    requires forall i :: 0 <= i < |values| ==> Key(ser, values[i]) != Normalise(name)
    ensures MakeAdapter(values, ser).Ok?
    ensures OrUnrecognized(values, ser, name) == Ok(MakeAdapter(values, ser).value.unrecognized)
    ensures Read(MakeAdapter(values, ser).value, StringToken(name)) == Ok(MakeAdapter(values, ser).value.unrecognized)
  {
    OrUnrecognizedMeaning(values, ser, name);
    ReadUnknown(values, ser, StringToken(name));
  }

  /** The adapter's reverse map holds every constant under its key. */
  lemma AdapterEntry<T>(values: seq<T>, ser: T -> string, i: nat)
    requires MakeAdapter(values, ser).Ok? && i < |values|
    ensures Key(ser, values[i]) in MakeAdapter(values, ser).value.revMap
    ensures MakeAdapter(values, ser).value.revMap[Key(ser, values[i])] == values[i]
  {
  }

  /** An enum type whose constants are distinct and whose keys are injective has distinct keys. */
  lemma DistinctKeysOfInjective<T>(values: seq<T>, ser: T -> string)
    requires forall i, j :: 0 <= i < j < |values| ==> values[i] != values[j]
    requires forall a, b :: Key(ser, a) == Key(ser, b) ==> a == b
    ensures DistinctKeys(values, ser)
  {
  }
}
