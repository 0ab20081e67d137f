/** The bulk data kinds of api/enums/BulkDataType.java. */
module BulkDataTypeEnum {
  import opened Base
  import ApiEnum

  datatype BulkDataType =
    | OracleCards | UniqueArtwork | DefaultCards | AllCards | Rulings | Unrecognized

  /** The constant with the given ordinal. */
  function FromOrdinal(i: nat): BulkDataType
    requires i < 6
  {
    if i == 0 then OracleCards else if i == 1 then UniqueArtwork else if i == 2 then DefaultCards else if i == 3 then AllCards else if i == 4 then Rulings else Unrecognized
  }

  /** The constants by ordinal. */
  function ByOrdinal(): seq<BulkDataType>
  {
    seq(6, i requires 0 <= i < 6 => FromOrdinal(i))
  }

  /** BulkDataType.values(), in declaration order. */
  const Values: seq<BulkDataType> := ByOrdinal()

  /** Enum.ordinal(). */
  function Ordinal(l: BulkDataType): nat
  {
    match l
    case OracleCards => 0 case UniqueArtwork => 1 case DefaultCards => 2 case AllCards => 3 case Rulings => 4 case Unrecognized => 5
  }

  /** Enum.name(). */
  function Name(l: BulkDataType): string
  {
    match l
    case OracleCards => "OracleCards" case UniqueArtwork => "UniqueArtwork" case DefaultCards => "DefaultCards" case AllCards => "AllCards"
    case Rulings => "Rulings" case Unrecognized => "Unrecognized"
  }

  /** serialized(): the lowercased constant name. */
  function Serialized(l: BulkDataType): string
  {
    Lower(Name(l))
  }

  /** The fingerprint (length, first, second and last character) of each constant's reverse-map key. */
  function KeyFingerprint(l: BulkDataType): (nat, char, char, char)
  {
    match l
    case OracleCards => (11, 'o', 'r', 's') case UniqueArtwork => (13, 'u', 'n', 'k') case DefaultCards => (12, 'd', 'e', 's')
    case AllCards => (8, 'a', 'l', 's') case Rulings => (7, 'r', 'u', 's') case Unrecognized => (12, 'u', 'n', 'd')
  }

  lemma OrdinalInverse(l: BulkDataType)
    ensures Ordinal(l) < 6 && FromOrdinal(Ordinal(l)) == l
  {
  }

  lemma FromOrdinalInverse(i: nat)
    requires i < 6
    ensures Ordinal(FromOrdinal(i)) == i
  {
  }

  /** values() lists every constant, at its ordinal. */
  lemma ValuesAt(l: BulkDataType)
    ensures |Values| == 6 && Values[Ordinal(l)] == l
  {
    OrdinalInverse(l);
  }

  /** values() lists no constant twice. */
  lemma ValuesDistinct()
    ensures forall i, j :: 0 <= i < j < |Values| ==> Values[i] != Values[j]
  {
    forall i, j | 0 <= i < j < |Values|
      ensures Values[i] != Values[j]
    {
      FromOrdinalInverse(i);
      FromOrdinalInverse(j);
    }
  }

  lemma KeyFingerprintOf(l: BulkDataType)
    ensures Fingerprint(ApiEnum.Key(Serialized, l)) == KeyFingerprint(l)
  {
    LowerIdempotent(Name(l));
  }

  lemma KeyFingerprintInjective(a: BulkDataType, b: BulkDataType)
    ensures KeyFingerprint(a) == KeyFingerprint(b) ==> a == b
  {
  }

  /** Distinct constants have distinct reverse-map keys. */
  lemma KeyInjective(a: BulkDataType, b: BulkDataType)
    ensures ApiEnum.Key(Serialized, a) == ApiEnum.Key(Serialized, b) ==> a == b
  {
    KeyFingerprintOf(a);
    KeyFingerprintOf(b);
    KeyFingerprintInjective(a, b);
  }

  /** The lowercased serialised forms are pairwise distinct, so the reverse map and the adapter can be built. */
  lemma DistinctKeys()
    ensures ApiEnum.DistinctKeys(Values, Serialized)
    ensures ApiEnum.RevMap(Values, Serialized).Ok?
    ensures ApiEnum.MakeAdapter(Values, Serialized).Ok?
  {
    ValuesDistinct();
    forall a, b
      ensures ApiEnum.Key(Serialized, a) == ApiEnum.Key(Serialized, b) ==> a == b
    {
      KeyInjective(a, b);
    }
    ApiEnum.DistinctKeysOfInjective(Values, Serialized);
  }

  lemma NameHasNoUnderscore(l: BulkDataType)
    ensures '_' !in Name(l)
  {
  }

  lemma KeyHasNoUnderscore(l: BulkDataType)
    ensures '_' !in ApiEnum.Key(Serialized, l)
  {
    NameHasNoUnderscore(l);
    LowerKeepsUnderscores(Name(l));
    LowerKeepsUnderscores(Serialized(l));
  }

  lemma NoConstantHasKey(k: string)
    requires forall l :: ApiEnum.Key(Serialized, l) != k
    ensures forall i :: 0 <= i < |Values| ==> ApiEnum.Key(Serialized, Values[i]) != k
  {
  }

  /** Writing a constant and reading it back gives the same constant. */
  lemma RoundTrip(l: BulkDataType)
    ensures ApiEnum.MakeAdapter(Values, Serialized).Ok?
    ensures ApiEnum.Read(ApiEnum.MakeAdapter(Values, Serialized).value, ApiEnum.Write(Serialized, Some(l))) == Ok(Some(l))
  {
    DistinctKeys();
    ValuesAt(l);
    KeyHasNoUnderscore(l);
    ApiEnum.ReadWriteRoundTrip(Values, Serialized, Some(l), []);
  }

  lemma UnrecognizedKey()
    ensures ApiEnum.Key(Serialized, Unrecognized) == "unrecognized"
  {
    LowerIdempotent(Name(Unrecognized));
  }

  /** Unrecognized provides the "unrecognized" key, so unknown names fall back to it. */
  lemma AdapterFallsBackToUnrecognized()
    ensures ApiEnum.MakeAdapter(Values, Serialized).Ok?
    ensures ApiEnum.MakeAdapter(Values, Serialized).value.unrecognized == Some(Unrecognized)
  {
    DistinctKeys();
    UnrecognizedKey();
    ValuesAt(Unrecognized);
    ApiEnum.AdapterEntry(Values, Serialized, 5);
  }

  /** A name that is no constant's key decodes to Unrecognized, through orUnrecognized and through the adapter. */
  lemma UnknownIsUnrecognized(name: string)
    requires forall l :: ApiEnum.Key(Serialized, l) != Lower(name)
    requires forall l :: ApiEnum.Key(Serialized, l) != ApiEnum.Normalise(name)
    ensures ApiEnum.OrUnrecognized(Values, Serialized, name) == Ok(Some(Unrecognized))
    ensures ApiEnum.MakeAdapter(Values, Serialized).Ok?
    ensures ApiEnum.Read(ApiEnum.MakeAdapter(Values, Serialized).value, ApiEnum.StringToken(name)) == Ok(Some(Unrecognized))
  {
    AdapterFallsBackToUnrecognized();
    NoConstantHasKey(Lower(name));
    NoConstantHasKey(ApiEnum.Normalise(name));
    ApiEnum.UnknownName(Values, Serialized, name);
  }

  /** A name or string whose normalised text is a constant's key decodes to that constant. */
  lemma Decodes(text: string, l: BulkDataType)
    requires ApiEnum.Normalise(text) == ApiEnum.Key(Serialized, l)
    ensures ApiEnum.MakeAdapter(Values, Serialized).Ok?
    ensures ApiEnum.Read(ApiEnum.MakeAdapter(Values, Serialized).value, ApiEnum.StringToken(text)) == Ok(Some(l))
    ensures ApiEnum.Read(ApiEnum.MakeAdapter(Values, Serialized).value, ApiEnum.NameToken(text)) == Ok(Some(l))
  {
    DistinctKeys();
    ValuesAt(l);
    ApiEnum.ReadKnownText(Values, Serialized, text, Ordinal(l));
  }

  lemma NormalisedDefaultCards()
    ensures ApiEnum.Normalise("default_cards") == "defaultcards"
  {
    ApiEnum.NormaliseTwoWords("default_cards", "default", "cards");
  }

  lemma KeyDefaultCards()
    ensures ApiEnum.Key(Serialized, DefaultCards) == "defaultcards"
  {
    LowerIdempotent(Name(DefaultCards));
    assert Lower("DefaultCards") == "defaultcards";
  }

  /** "default_cards" decodes to DefaultCards. */
  lemma DecodesDefaultCards()
    ensures ApiEnum.MakeAdapter(Values, Serialized).Ok?
    ensures ApiEnum.Read(ApiEnum.MakeAdapter(Values, Serialized).value, ApiEnum.StringToken("default_cards")) == Ok(Some(DefaultCards))
  {
    NormalisedDefaultCards();
    KeyDefaultCards();
    Decodes("default_cards", DefaultCards);
  }

}
