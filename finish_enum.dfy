/** The finishes of api/enums/Finish.java. */
module FinishEnum {
  import opened Base
  import ApiEnum

  datatype Finish =
    | Nonfoil | Foil | Etched | Glossy | Unrecognized

  /** The constant with the given ordinal. */
  function FromOrdinal(i: nat): Finish
    requires i < 5
  {
    if i == 0 then Nonfoil else if i == 1 then Foil else if i == 2 then Etched else if i == 3 then Glossy else Unrecognized
  }

  /** The constants by ordinal. */
  function ByOrdinal(): seq<Finish>
  {
    seq(5, i requires 0 <= i < 5 => FromOrdinal(i))
  }

  /** Finish.values(), in declaration order. */
  const Values: seq<Finish> := ByOrdinal()

  /** Enum.ordinal(). */
  function Ordinal(l: Finish): nat
  {
    match l
    case Nonfoil => 0 case Foil => 1 case Etched => 2 case Glossy => 3 case Unrecognized => 4
  }

  /** Enum.name(). */
  function Name(l: Finish): string
  {
    match l
    case Nonfoil => "Nonfoil" case Foil => "Foil" case Etched => "Etched" case Glossy => "Glossy"
    case Unrecognized => "Unrecognized"
  }

  /** serialized(): the constant name itself. */
  function Serialized(l: Finish): string
  {
    Name(l)
  }

  /** The fingerprint (length, first, second and last character) of each constant's reverse-map key. */
  function KeyFingerprint(l: Finish): (nat, char, char, char)
  {
    match l
    case Nonfoil => (7, 'n', 'o', 'l') case Foil => (4, 'f', 'o', 'l') case Etched => (6, 'e', 't', 'd')
    case Glossy => (6, 'g', 'l', 'y') case Unrecognized => (12, 'u', 'n', 'd')
  }

  lemma OrdinalInverse(l: Finish)
    ensures Ordinal(l) < 5 && FromOrdinal(Ordinal(l)) == l
  {
  }

  lemma FromOrdinalInverse(i: nat)
    requires i < 5
    ensures Ordinal(FromOrdinal(i)) == i
  {
  }

  /** values() lists every constant, at its ordinal. */
  lemma ValuesAt(l: Finish)
    ensures |Values| == 5 && Values[Ordinal(l)] == l
  {
    OrdinalInverse(l);
  }

  /** values() lists no constant twice. */
  lemma ValuesDistinct()
    ensures forall i, j :: 0 <= i < j < |Values| ==> Values[i] != Values[j]
  {
    forall i, j | 0 <= i < j < |Values|
      ensures Values[i] != Values[j]
    {
      FromOrdinalInverse(i);
      FromOrdinalInverse(j);
    }
  }

  lemma KeyFingerprintOf(l: Finish)
    ensures Fingerprint(ApiEnum.Key(Serialized, l)) == KeyFingerprint(l)
  {

  }

  lemma KeyFingerprintInjective(a: Finish, b: Finish)
    ensures KeyFingerprint(a) == KeyFingerprint(b) ==> a == b
  {
  }

  /** Distinct constants have distinct reverse-map keys. */
  lemma KeyInjective(a: Finish, b: Finish)
    ensures ApiEnum.Key(Serialized, a) == ApiEnum.Key(Serialized, b) ==> a == b
  {
    KeyFingerprintOf(a);
    KeyFingerprintOf(b);
    KeyFingerprintInjective(a, b);
  }

  /** The lowercased serialised forms are pairwise distinct, so the reverse map and the adapter can be built. */
  lemma DistinctKeys()
    ensures ApiEnum.DistinctKeys(Values, Serialized)
    ensures ApiEnum.RevMap(Values, Serialized).Ok?
    ensures ApiEnum.MakeAdapter(Values, Serialized).Ok?
  {
    ValuesDistinct();
    forall a, b
      ensures ApiEnum.Key(Serialized, a) == ApiEnum.Key(Serialized, b) ==> a == b
    {
      KeyInjective(a, b);
    }
    ApiEnum.DistinctKeysOfInjective(Values, Serialized);
  }

  lemma NameHasNoUnderscore(l: Finish)
    ensures '_' !in Name(l)
  {
  }

  lemma KeyHasNoUnderscore(l: Finish)
    ensures '_' !in ApiEnum.Key(Serialized, l)
  {
    NameHasNoUnderscore(l);
    LowerKeepsUnderscores(Name(l));

  }

  lemma NoConstantHasKey(k: string)
    requires forall l :: ApiEnum.Key(Serialized, l) != k
    ensures forall i :: 0 <= i < |Values| ==> ApiEnum.Key(Serialized, Values[i]) != k
  {
  }

  /** Writing a constant and reading it back gives the same constant. */
  lemma RoundTrip(l: Finish)
    ensures ApiEnum.MakeAdapter(Values, Serialized).Ok?
    ensures ApiEnum.Read(ApiEnum.MakeAdapter(Values, Serialized).value, ApiEnum.Write(Serialized, Some(l))) == Ok(Some(l))
  {
    DistinctKeys();
    ValuesAt(l);
    KeyHasNoUnderscore(l);
    ApiEnum.ReadWriteRoundTrip(Values, Serialized, Some(l), []);
  }

  lemma UnrecognizedKey()
    ensures ApiEnum.Key(Serialized, Unrecognized) == "unrecognized"
  {

  }

  /** Unrecognized provides the "unrecognized" key, so unknown names fall back to it. */
  lemma AdapterFallsBackToUnrecognized()
    ensures ApiEnum.MakeAdapter(Values, Serialized).Ok?
    ensures ApiEnum.MakeAdapter(Values, Serialized).value.unrecognized == Some(Unrecognized)
  {
    DistinctKeys();
    UnrecognizedKey();
    ValuesAt(Unrecognized);
    ApiEnum.AdapterEntry(Values, Serialized, 4);
  }

  /** A name that is no constant's key decodes to Unrecognized, through orUnrecognized and through the adapter. */
  lemma UnknownIsUnrecognized(name: string)
    requires forall l :: ApiEnum.Key(Serialized, l) != Lower(name)
    requires forall l :: ApiEnum.Key(Serialized, l) != ApiEnum.Normalise(name)
    ensures ApiEnum.OrUnrecognized(Values, Serialized, name) == Ok(Some(Unrecognized))
    ensures ApiEnum.MakeAdapter(Values, Serialized).Ok?
    ensures ApiEnum.Read(ApiEnum.MakeAdapter(Values, Serialized).value, ApiEnum.StringToken(name)) == Ok(Some(Unrecognized))
  {
    AdapterFallsBackToUnrecognized();
    NoConstantHasKey(Lower(name));
    NoConstantHasKey(ApiEnum.Normalise(name));
    ApiEnum.UnknownName(Values, Serialized, name);
  }

  /** A name or string whose normalised text is a constant's key decodes to that constant. */
  lemma Decodes(text: string, l: Finish)
    requires ApiEnum.Normalise(text) == ApiEnum.Key(Serialized, l)
    ensures ApiEnum.MakeAdapter(Values, Serialized).Ok?
    ensures ApiEnum.Read(ApiEnum.MakeAdapter(Values, Serialized).value, ApiEnum.StringToken(text)) == Ok(Some(l))
    ensures ApiEnum.Read(ApiEnum.MakeAdapter(Values, Serialized).value, ApiEnum.NameToken(text)) == Ok(Some(l))
  {
    DistinctKeys();
    ValuesAt(l);
    ApiEnum.ReadKnownText(Values, Serialized, text, Ordinal(l));
  }

  lemma NormalisedFoil()
    ensures ApiEnum.Normalise("foil") == "foil"
    ensures ApiEnum.Normalise("Foil") == "foil"
  {
    LowerOfLowercase("foil");
    assert Lower("Foil") == "foil";
    StripUnderscoresMeaning("foil");
  }

  lemma KeyFoil()
    ensures ApiEnum.Key(Serialized, Foil) == "foil"
  {
    assert Lower("Foil") == "foil";
  }

  /** The reverse-map keys are lowercased, so both "foil" and "Foil" decode to Foil. */
  lemma DecodesFoil()
    ensures ApiEnum.MakeAdapter(Values, Serialized).Ok?
    ensures ApiEnum.Read(ApiEnum.MakeAdapter(Values, Serialized).value, ApiEnum.StringToken("foil")) == Ok(Some(Foil))
    ensures ApiEnum.Read(ApiEnum.MakeAdapter(Values, Serialized).value, ApiEnum.StringToken("Foil")) == Ok(Some(Foil))
  {
    NormalisedFoil();
    KeyFoil();
    Decodes("foil", Foil);
    Decodes("Foil", Foil);
  }

}
