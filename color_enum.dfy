/** The colours of api/enums/Color.java and their library colours. */
module ColorEnum {
  import opened Base
  import ApiEnum
  import LibMtg

  datatype Color =
    | White | Blue | Black | Red | Green | Unrecognized

  /** The constant with the given ordinal. */
  function FromOrdinal(i: nat): Color
    requires i < 6
  {
    if i == 0 then White else if i == 1 then Blue else if i == 2 then Black else if i == 3 then Red else if i == 4 then Green else Unrecognized
  }

  /** The constants by ordinal. */
  function ByOrdinal(): seq<Color>
  {
    seq(6, i requires 0 <= i < 6 => FromOrdinal(i))
  }

  /** Color.values(), in declaration order. */
  const Values: seq<Color> := ByOrdinal()

  /** Enum.ordinal(). */
  function Ordinal(l: Color): nat
  {
    match l
    case White => 0 case Blue => 1 case Black => 2 case Red => 3 case Green => 4 case Unrecognized => 5
  }

  /** Enum.name(). */
  function Name(l: Color): string
  {
    match l
    case White => "White" case Blue => "Blue" case Black => "Black" case Red => "Red"
    case Green => "Green" case Unrecognized => "Unrecognized"
  }

  /** serialized(): the first letter of the name, except Blue ("U") and Unrecognized ("?"). */
  function Serialized(l: Color): string
  {
    if l == Blue then "U" else if l == Unrecognized then "?" else Name(l)[..1]
  }

  /** The fingerprint (length, first, second and last character) of each constant's reverse-map key. */
  function KeyFingerprint(l: Color): (nat, char, char, char)
  {
    match l
    case White => (1, 'w', ' ', 'w') case Blue => (1, 'u', ' ', 'u') case Black => (1, 'b', ' ', 'b')
    case Red => (1, 'r', ' ', 'r') case Green => (1, 'g', ' ', 'g') case Unrecognized => (1, '?', ' ', '?')
  }

  lemma OrdinalInverse(l: Color)
    ensures Ordinal(l) < 6 && FromOrdinal(Ordinal(l)) == l
  {
  }

  lemma FromOrdinalInverse(i: nat)
    requires i < 6
    ensures Ordinal(FromOrdinal(i)) == i
  {
  }

  /** values() lists every constant, at its ordinal. */
  lemma ValuesAt(l: Color)
    ensures |Values| == 6 && Values[Ordinal(l)] == l
  {
    OrdinalInverse(l);
  }

  /** values() lists no constant twice. */
  lemma ValuesDistinct()
    ensures forall i, j :: 0 <= i < j < |Values| ==> Values[i] != Values[j]
  {
    forall i, j | 0 <= i < j < |Values|
      ensures Values[i] != Values[j]
    {
      FromOrdinalInverse(i);
      FromOrdinalInverse(j);
    }
  }

  lemma KeyFingerprintOf(l: Color)
    ensures Fingerprint(ApiEnum.Key(Serialized, l)) == KeyFingerprint(l)
  {

  }

  lemma KeyFingerprintInjective(a: Color, b: Color)
    ensures KeyFingerprint(a) == KeyFingerprint(b) ==> a == b
  {
  }

  /** Distinct constants have distinct reverse-map keys. */
  lemma KeyInjective(a: Color, b: Color)
    ensures ApiEnum.Key(Serialized, a) == ApiEnum.Key(Serialized, b) ==> a == b
  {
    KeyFingerprintOf(a);
    KeyFingerprintOf(b);
    KeyFingerprintInjective(a, b);
  }

  /** The lowercased serialised forms are pairwise distinct, so the reverse map and the adapter can be built. */
  lemma DistinctKeys()
    ensures ApiEnum.DistinctKeys(Values, Serialized)
    ensures ApiEnum.RevMap(Values, Serialized).Ok?
    ensures ApiEnum.MakeAdapter(Values, Serialized).Ok?
  {
    ValuesDistinct();
    forall a, b
      ensures ApiEnum.Key(Serialized, a) == ApiEnum.Key(Serialized, b) ==> a == b
    {
      KeyInjective(a, b);
    }
    ApiEnum.DistinctKeysOfInjective(Values, Serialized);
  }

  lemma NameHasNoUnderscore(l: Color)
    ensures '_' !in Name(l)
  {
  }

  lemma KeyHasNoUnderscore(l: Color)
    ensures '_' !in ApiEnum.Key(Serialized, l)
  {
    assert '_' !in Serialized(l);
    LowerKeepsUnderscores(Serialized(l));
  }

  lemma NoConstantHasKey(k: string)
    requires forall l :: ApiEnum.Key(Serialized, l) != k
    ensures forall i :: 0 <= i < |Values| ==> ApiEnum.Key(Serialized, Values[i]) != k
  {
  }

  /** Writing a constant and reading it back gives the same constant. */
  lemma RoundTrip(l: Color)
    ensures ApiEnum.MakeAdapter(Values, Serialized).Ok?
    ensures ApiEnum.Read(ApiEnum.MakeAdapter(Values, Serialized).value, ApiEnum.Write(Serialized, Some(l))) == Ok(Some(l))
  {
    DistinctKeys();
    ValuesAt(l);
    KeyHasNoUnderscore(l);
    ApiEnum.ReadWriteRoundTrip(Values, Serialized, Some(l), []);
  }

  /** A name or string whose normalised text is a constant's key decodes to that constant. */
  lemma Decodes(text: string, l: Color)
    requires ApiEnum.Normalise(text) == ApiEnum.Key(Serialized, l)
    ensures ApiEnum.MakeAdapter(Values, Serialized).Ok?
    ensures ApiEnum.Read(ApiEnum.MakeAdapter(Values, Serialized).value, ApiEnum.StringToken(text)) == Ok(Some(l))
    ensures ApiEnum.Read(ApiEnum.MakeAdapter(Values, Serialized).value, ApiEnum.NameToken(text)) == Ok(Some(l))
  {
    DistinctKeys();
    ValuesAt(l);
    ApiEnum.ReadKnownText(Values, Serialized, text, Ordinal(l));
  }

  /** libMtgColor: the library colour passed to the constructor (null for Unrecognized). */
  function LibColor(c: Color): Option<LibMtg.Color>
  {
    match c
    case White => Some(LibMtg.White) case Blue => Some(LibMtg.Blue) case Black => Some(LibMtg.Black)
    case Red => Some(LibMtg.Red) case Green => Some(LibMtg.Green) case Unrecognized => None
  }

  /** White, Black, Red and Green serialise as the first letter of their name, Blue as "U", Unrecognized as "?". */
  lemma SerialisedForms(c: Color)
    ensures |Serialized(c)| == 1
    ensures c !in {Blue, Unrecognized} ==> Serialized(c) == [Name(c)[0]]
    ensures c == Blue <==> Serialized(c) == "U"
    ensures c == Unrecognized <==> Serialized(c) == "?"
  {
  }

  /** Only Unrecognized lacks a library colour, and every other colour maps to the library colour of the same name. */
  lemma LibColorMeaning(c: Color)
    ensures LibColor(c).None? <==> c == Unrecognized
    ensures LibColor(c).Some? ==> Lower(LibMtg.ColorName(LibColor(c).value)) == Lower(Name(c))
  {
  }

  /** No constant serialises to "unrecognized", so the adapter has no fallback constant. */
  lemma AdapterHasNoFallback()
    ensures ApiEnum.MakeAdapter(Values, Serialized).Ok?
    ensures ApiEnum.MakeAdapter(Values, Serialized).value.unrecognized == None
  {
    NoKeyIsUnrecognized();
  }

  /** An unknown colour string decodes to null, both through orUnrecognized and through the adapter. */
  lemma UnknownIsNull(name: string)
    requires forall c :: ApiEnum.Key(Serialized, c) != Lower(name)
    requires forall c :: ApiEnum.Key(Serialized, c) != ApiEnum.Normalise(name)
    ensures ApiEnum.OrUnrecognized(Values, Serialized, name) == Ok(None)
    ensures ApiEnum.MakeAdapter(Values, Serialized).Ok?
    ensures ApiEnum.Read(ApiEnum.MakeAdapter(Values, Serialized).value, ApiEnum.StringToken(name)) == Ok(None)
  {
    AdapterHasNoFallback();
    DistinctKeys();
    NoConstantHasKey(Lower(name));
    NoConstantHasKey(ApiEnum.Normalise(name));
    ApiEnum.UnknownName(Values, Serialized, name);
  }

  /** The reverse map has no "unrecognized" key: every key is one character long. */
  lemma NoKeyIsUnrecognized()
    ensures ApiEnum.RevMap(Values, Serialized).Ok?
    ensures "unrecognized" !in ApiEnum.RevMap(Values, Serialized).value
  {
    DistinctKeys();
    forall i | 0 <= i < |Values|
      ensures ApiEnum.Key(Serialized, Values[i]) != "unrecognized"
    {
      SerialisedForms(Values[i]);
    }
  }

}
