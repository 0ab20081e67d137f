/** The border colours of api/enums/BorderColor.java. */
module BorderColorEnum {
  import opened Base
  import ApiEnum

  datatype BorderColor =
    | Black | White | Silver | Gold | Borderless | Unrecognized

  /** The constant with the given ordinal. */
  function FromOrdinal(i: nat): BorderColor
    requires i < 6
  {
    if i == 0 then Black else if i == 1 then White else if i == 2 then Silver else if i == 3 then Gold else if i == 4 then Borderless else Unrecognized
  }

  /** The constants by ordinal. */
  function ByOrdinal(): seq<BorderColor>
  {
    seq(6, i requires 0 <= i < 6 => FromOrdinal(i))
  }

  /** BorderColor.values(), in declaration order. */
  const Values: seq<BorderColor> := ByOrdinal()

  /** Enum.ordinal(). */
  function Ordinal(l: BorderColor): nat
  {
    match l
    case Black => 0 case White => 1 case Silver => 2 case Gold => 3 case Borderless => 4 case Unrecognized => 5
  }

  /** Enum.name(). */
  function Name(l: BorderColor): string
  {
    match l
    case Black => "Black" case White => "White" case Silver => "Silver" case Gold => "Gold"
    case Borderless => "Borderless" case Unrecognized => "Unrecognized"
  }

  /** serialized(): the lowercased constant name. */
  function Serialized(l: BorderColor): string
  {
    Lower(Name(l))
  }

  /** The fingerprint (length, first, second and last character) of each constant's reverse-map key. */
  function KeyFingerprint(l: BorderColor): (nat, char, char, char)
  {
    match l
    case Black => (5, 'b', 'l', 'k') case White => (5, 'w', 'h', 'e') case Silver => (6, 's', 'i', 'r')
    case Gold => (4, 'g', 'o', 'd') case Borderless => (10, 'b', 'o', 's') case Unrecognized => (12, 'u', 'n', 'd')
  }

  lemma OrdinalInverse(l: BorderColor)
    ensures Ordinal(l) < 6 && FromOrdinal(Ordinal(l)) == l
  {
  }

  lemma FromOrdinalInverse(i: nat)
    requires i < 6
    ensures Ordinal(FromOrdinal(i)) == i
  {
  }

  /** values() lists every constant, at its ordinal. */
  lemma ValuesAt(l: BorderColor)
    ensures |Values| == 6 && Values[Ordinal(l)] == l
  {
    OrdinalInverse(l);
  }

  /** values() lists no constant twice. */
  lemma ValuesDistinct()
    ensures forall i, j :: 0 <= i < j < |Values| ==> Values[i] != Values[j]
  {
    forall i, j | 0 <= i < j < |Values|
      ensures Values[i] != Values[j]
    {
      FromOrdinalInverse(i);
      FromOrdinalInverse(j);
    }
  }

  lemma KeyFingerprintOf(l: BorderColor)
    ensures Fingerprint(ApiEnum.Key(Serialized, l)) == KeyFingerprint(l)
  {
    LowerIdempotent(Name(l));
  }

  lemma KeyFingerprintInjective(a: BorderColor, b: BorderColor)
    ensures KeyFingerprint(a) == KeyFingerprint(b) ==> a == b
  {
  }

  /** Distinct constants have distinct reverse-map keys. */
  lemma KeyInjective(a: BorderColor, b: BorderColor)
    ensures ApiEnum.Key(Serialized, a) == ApiEnum.Key(Serialized, b) ==> a == b
  {
    KeyFingerprintOf(a);
    KeyFingerprintOf(b);
    KeyFingerprintInjective(a, b);
  }

  /** The lowercased serialised forms are pairwise distinct, so the reverse map and the adapter can be built. */
  lemma DistinctKeys()
    ensures ApiEnum.DistinctKeys(Values, Serialized)
    ensures ApiEnum.RevMap(Values, Serialized).Ok?
    ensures ApiEnum.MakeAdapter(Values, Serialized).Ok?
  {
    ValuesDistinct();
    forall a, b
      ensures ApiEnum.Key(Serialized, a) == ApiEnum.Key(Serialized, b) ==> a == b
    {
      KeyInjective(a, b);
    }
    ApiEnum.DistinctKeysOfInjective(Values, Serialized);
  }

  lemma NameHasNoUnderscore(l: BorderColor)
    ensures '_' !in Name(l)
  {
  }

  lemma KeyHasNoUnderscore(l: BorderColor)
    ensures '_' !in ApiEnum.Key(Serialized, l)
  {
    NameHasNoUnderscore(l);
    LowerKeepsUnderscores(Name(l));
    LowerKeepsUnderscores(Serialized(l));
  }

  lemma NoConstantHasKey(k: string)
    requires forall l :: ApiEnum.Key(Serialized, l) != k
    ensures forall i :: 0 <= i < |Values| ==> ApiEnum.Key(Serialized, Values[i]) != k
  {
  }

  /** Writing a constant and reading it back gives the same constant. */
  lemma RoundTrip(l: BorderColor)
    ensures ApiEnum.MakeAdapter(Values, Serialized).Ok?
    ensures ApiEnum.Read(ApiEnum.MakeAdapter(Values, Serialized).value, ApiEnum.Write(Serialized, Some(l))) == Ok(Some(l))
  {
    DistinctKeys();
    ValuesAt(l);
    KeyHasNoUnderscore(l);
    ApiEnum.ReadWriteRoundTrip(Values, Serialized, Some(l), []);
  }

  lemma UnrecognizedKey()
    ensures ApiEnum.Key(Serialized, Unrecognized) == "unrecognized"
  {
    LowerIdempotent(Name(Unrecognized));
  }

  /** Unrecognized provides the "unrecognized" key, so unknown names fall back to it. */
  lemma AdapterFallsBackToUnrecognized()
    ensures ApiEnum.MakeAdapter(Values, Serialized).Ok?
    ensures ApiEnum.MakeAdapter(Values, Serialized).value.unrecognized == Some(Unrecognized)
  {
    DistinctKeys();
    UnrecognizedKey();
    ValuesAt(Unrecognized);
    ApiEnum.AdapterEntry(Values, Serialized, 5);
  }

  /** A name that is no constant's key decodes to Unrecognized, through orUnrecognized and through the adapter. */
  lemma UnknownIsUnrecognized(name: string)
    requires forall l :: ApiEnum.Key(Serialized, l) != Lower(name)
    requires forall l :: ApiEnum.Key(Serialized, l) != ApiEnum.Normalise(name)
    ensures ApiEnum.OrUnrecognized(Values, Serialized, name) == Ok(Some(Unrecognized))
    ensures ApiEnum.MakeAdapter(Values, Serialized).Ok?
    ensures ApiEnum.Read(ApiEnum.MakeAdapter(Values, Serialized).value, ApiEnum.StringToken(name)) == Ok(Some(Unrecognized))
  {
    AdapterFallsBackToUnrecognized();
    NoConstantHasKey(Lower(name));
    NoConstantHasKey(ApiEnum.Normalise(name));
    ApiEnum.UnknownName(Values, Serialized, name);
  }

  /** A name or string whose normalised text is a constant's key decodes to that constant. */
  lemma Decodes(text: string, l: BorderColor)
    requires ApiEnum.Normalise(text) == ApiEnum.Key(Serialized, l)
    ensures ApiEnum.MakeAdapter(Values, Serialized).Ok?
    ensures ApiEnum.Read(ApiEnum.MakeAdapter(Values, Serialized).value, ApiEnum.StringToken(text)) == Ok(Some(l))
    ensures ApiEnum.Read(ApiEnum.MakeAdapter(Values, Serialized).value, ApiEnum.NameToken(text)) == Ok(Some(l))
  {
    DistinctKeys();
    ValuesAt(l);
    ApiEnum.ReadKnownText(Values, Serialized, text, Ordinal(l));
  }


}
