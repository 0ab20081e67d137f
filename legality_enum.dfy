/** The legalities of api/enums/Legality.java and their library legalities. */
module LegalityEnum {
  import opened Base
  import ApiEnum
  import LibMtg

  datatype Legality =
    | Legal | NotLegal | Restricted | Banned | Unrecognized

  /** The constant with the given ordinal. */
  function FromOrdinal(i: nat): Legality
    requires i < 5
  {
    if i == 0 then Legal else if i == 1 then NotLegal else if i == 2 then Restricted else if i == 3 then Banned else Unrecognized
  }

  /** The constants by ordinal. */
  function ByOrdinal(): seq<Legality>
  {
    seq(5, i requires 0 <= i < 5 => FromOrdinal(i))
  }

  /** Legality.values(), in declaration order. */
  const Values: seq<Legality> := ByOrdinal()

  /** Enum.ordinal(). */
  function Ordinal(l: Legality): nat
  {
    match l
    case Legal => 0 case NotLegal => 1 case Restricted => 2 case Banned => 3 case Unrecognized => 4
  }

  /** Enum.name(). */
  function Name(l: Legality): string
  {
    match l
    case Legal => "Legal" case NotLegal => "NotLegal" case Restricted => "Restricted" case Banned => "Banned"
    case Unrecognized => "Unrecognized"
  }

  /** serialized(): the lowercased constant name. */
  function Serialized(l: Legality): string
  {
    Lower(Name(l))
  }

  /** The fingerprint (length, first, second and last character) of each constant's reverse-map key. */
  function KeyFingerprint(l: Legality): (nat, char, char, char)
  {
    match l
    case Legal => (5, 'l', 'e', 'l') case NotLegal => (8, 'n', 'o', 'l') case Restricted => (10, 'r', 'e', 'd')
    case Banned => (6, 'b', 'a', 'd') case Unrecognized => (12, 'u', 'n', 'd')
  }

  lemma OrdinalInverse(l: Legality)
    ensures Ordinal(l) < 5 && FromOrdinal(Ordinal(l)) == l
  {
  }

  lemma FromOrdinalInverse(i: nat)
    requires i < 5
    ensures Ordinal(FromOrdinal(i)) == i
  {
  }

  /** values() lists every constant, at its ordinal. */
  lemma ValuesAt(l: Legality)
    ensures |Values| == 5 && Values[Ordinal(l)] == l
  {
    OrdinalInverse(l);
  }

  /** values() lists no constant twice. */
  lemma ValuesDistinct()
    ensures forall i, j :: 0 <= i < j < |Values| ==> Values[i] != Values[j]
  {
    forall i, j | 0 <= i < j < |Values|
      ensures Values[i] != Values[j]
    {
      FromOrdinalInverse(i);
      FromOrdinalInverse(j);
    }
  }

  lemma KeyFingerprintOf(l: Legality)
    ensures Fingerprint(ApiEnum.Key(Serialized, l)) == KeyFingerprint(l)
  {
    LowerIdempotent(Name(l));
  }

  lemma KeyFingerprintInjective(a: Legality, b: Legality)
    ensures KeyFingerprint(a) == KeyFingerprint(b) ==> a == b
  {
  }

  /** Distinct constants have distinct reverse-map keys. */
  lemma KeyInjective(a: Legality, b: Legality)
    ensures ApiEnum.Key(Serialized, a) == ApiEnum.Key(Serialized, b) ==> a == b
  {
    KeyFingerprintOf(a);
    KeyFingerprintOf(b);
    KeyFingerprintInjective(a, b);
  }

  /** The lowercased serialised forms are pairwise distinct, so the reverse map and the adapter can be built. */
  lemma DistinctKeys()
    ensures ApiEnum.DistinctKeys(Values, Serialized)
    ensures ApiEnum.RevMap(Values, Serialized).Ok?
    ensures ApiEnum.MakeAdapter(Values, Serialized).Ok?
  {
    ValuesDistinct();
    forall a, b
      ensures ApiEnum.Key(Serialized, a) == ApiEnum.Key(Serialized, b) ==> a == b
    {
      KeyInjective(a, b);
    }
    ApiEnum.DistinctKeysOfInjective(Values, Serialized);
  }

  lemma NameHasNoUnderscore(l: Legality)
    ensures '_' !in Name(l)
  {
  }

  lemma KeyHasNoUnderscore(l: Legality)
    ensures '_' !in ApiEnum.Key(Serialized, l)
  {
    NameHasNoUnderscore(l);
    LowerKeepsUnderscores(Name(l));
    LowerKeepsUnderscores(Serialized(l));
  }

  lemma NoConstantHasKey(k: string)
    requires forall l :: ApiEnum.Key(Serialized, l) != k
    ensures forall i :: 0 <= i < |Values| ==> ApiEnum.Key(Serialized, Values[i]) != k
  {
  }

  /** Writing a constant and reading it back gives the same constant. */
  lemma RoundTrip(l: Legality)
    ensures ApiEnum.MakeAdapter(Values, Serialized).Ok?
    ensures ApiEnum.Read(ApiEnum.MakeAdapter(Values, Serialized).value, ApiEnum.Write(Serialized, Some(l))) == Ok(Some(l))
  {
    DistinctKeys();
    ValuesAt(l);
    KeyHasNoUnderscore(l);
    ApiEnum.ReadWriteRoundTrip(Values, Serialized, Some(l), []);
  }

  lemma UnrecognizedKey()
    ensures ApiEnum.Key(Serialized, Unrecognized) == "unrecognized"
  {
    LowerIdempotent(Name(Unrecognized));
  }

  /** Unrecognized provides the "unrecognized" key, so unknown names fall back to it. */
  lemma AdapterFallsBackToUnrecognized()
    ensures ApiEnum.MakeAdapter(Values, Serialized).Ok?
    ensures ApiEnum.MakeAdapter(Values, Serialized).value.unrecognized == Some(Unrecognized)
  {
    DistinctKeys();
    UnrecognizedKey();
    ValuesAt(Unrecognized);
    ApiEnum.AdapterEntry(Values, Serialized, 4);
  }

  /** A name that is no constant's key decodes to Unrecognized, through orUnrecognized and through the adapter. */
  lemma UnknownIsUnrecognized(name: string)
    requires forall l :: ApiEnum.Key(Serialized, l) != Lower(name)
    requires forall l :: ApiEnum.Key(Serialized, l) != ApiEnum.Normalise(name)
    ensures ApiEnum.OrUnrecognized(Values, Serialized, name) == Ok(Some(Unrecognized))
    ensures ApiEnum.MakeAdapter(Values, Serialized).Ok?
    ensures ApiEnum.Read(ApiEnum.MakeAdapter(Values, Serialized).value, ApiEnum.StringToken(name)) == Ok(Some(Unrecognized))
  {
    AdapterFallsBackToUnrecognized();
    NoConstantHasKey(Lower(name));
    NoConstantHasKey(ApiEnum.Normalise(name));
    ApiEnum.UnknownName(Values, Serialized, name);
  }

  /** A name or string whose normalised text is a constant's key decodes to that constant. */
  lemma Decodes(text: string, l: Legality)
    requires ApiEnum.Normalise(text) == ApiEnum.Key(Serialized, l)
    ensures ApiEnum.MakeAdapter(Values, Serialized).Ok?
    ensures ApiEnum.Read(ApiEnum.MakeAdapter(Values, Serialized).value, ApiEnum.StringToken(text)) == Ok(Some(l))
    ensures ApiEnum.Read(ApiEnum.MakeAdapter(Values, Serialized).value, ApiEnum.NameToken(text)) == Ok(Some(l))
  {
    DistinctKeys();
    ValuesAt(l);
    ApiEnum.ReadKnownText(Values, Serialized, text, Ordinal(l));
  }

  /** libMtgLegality: the library legality passed to the constructor (null for Unrecognized). */
  function LibLegality(l: Legality): Option<LibMtg.Legality>
  {
    match l
    case Legal => Some(LibMtg.Legal) case NotLegal => Some(LibMtg.NotLegal)
    case Restricted => Some(LibMtg.Restricted) case Banned => Some(LibMtg.Banned)
    case Unrecognized => None
  }

  /** Every legality but Unrecognized maps to the library legality of the same name; Unrecognized maps to null. */
  lemma LibLegalityMeaning(l: Legality)
    ensures LibLegality(l).None? <==> l == Unrecognized
    ensures LibLegality(l).Some? ==> LibMtg.LegalityName(LibLegality(l).value) == Name(l)
  {
  }

  lemma NormalisedNotLegal()
    ensures ApiEnum.Normalise("not_legal") == "notlegal"
  {
    ApiEnum.NormaliseTwoWords("not_legal", "not", "legal");
  }

  lemma KeyNotLegal()
    ensures ApiEnum.Key(Serialized, NotLegal) == "notlegal"
  {
    LowerIdempotent(Name(NotLegal));
    assert Lower("NotLegal") == "notlegal";
  }

  /** "not_legal" decodes to NotLegal. */
  lemma DecodesNotLegal()
    ensures ApiEnum.MakeAdapter(Values, Serialized).Ok?
    ensures ApiEnum.Read(ApiEnum.MakeAdapter(Values, Serialized).value, ApiEnum.StringToken("not_legal")) == Ok(Some(NotLegal))
  {
    NormalisedNotLegal();
    KeyNotLegal();
    Decodes("not_legal", NotLegal);
  }

}
