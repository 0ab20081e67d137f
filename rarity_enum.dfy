/** The rarities of api/enums/Rarity.java and their library rarities. */
module RarityEnum {
  import opened Base
  import ApiEnum
  import LibMtg

  datatype Rarity =
    | Common | Uncommon | Rare | Mythic | Bonus | Special | Unrecognized

  /** The constant with the given ordinal. */
  function FromOrdinal(i: nat): Rarity
    requires i < 7
  {
    if i < 4 then (if i == 0 then Common else if i == 1 then Uncommon else if i == 2 then Rare else Mythic)
      else (if i == 4 then Bonus else if i == 5 then Special else Unrecognized)
  }

  /** The constants by ordinal. */
  function ByOrdinal(): seq<Rarity>
  {
    seq(7, i requires 0 <= i < 7 => FromOrdinal(i))
  }

  /** Rarity.values(), in declaration order. */
  const Values: seq<Rarity> := ByOrdinal()

  /** Enum.ordinal(). */
  function Ordinal(l: Rarity): nat
  {
    match l
    case Common => 0 case Uncommon => 1 case Rare => 2 case Mythic => 3 case Bonus => 4 case Special => 5 case Unrecognized => 6
  }

  /** Enum.name(). */
  function Name(l: Rarity): string
  {
    match l
    case Common => "Common" case Uncommon => "Uncommon" case Rare => "Rare" case Mythic => "Mythic"
    case Bonus => "Bonus" case Special => "Special" case Unrecognized => "Unrecognized"
  }

  /** serialized(): the lowercased constant name. */
  function Serialized(l: Rarity): string
  {
    Lower(Name(l))
  }

  /** The fingerprint (length, first, second and last character) of each constant's reverse-map key. */
  function KeyFingerprint(l: Rarity): (nat, char, char, char)
  {
    match l
    case Common => (6, 'c', 'o', 'n') case Uncommon => (8, 'u', 'n', 'n') case Rare => (4, 'r', 'a', 'e')
    case Mythic => (6, 'm', 'y', 'c') case Bonus => (5, 'b', 'o', 's') case Special => (7, 's', 'p', 'l')
    case Unrecognized => (12, 'u', 'n', 'd')
  }

  lemma OrdinalInverse(l: Rarity)
    ensures Ordinal(l) < 7 && FromOrdinal(Ordinal(l)) == l
  {
  }

  lemma FromOrdinalInverse(i: nat)
    requires i < 7
    ensures Ordinal(FromOrdinal(i)) == i
  {
  }

  /** values() lists every constant, at its ordinal. */
  lemma ValuesAt(l: Rarity)
    ensures |Values| == 7 && Values[Ordinal(l)] == l
  {
    OrdinalInverse(l);
  }

  /** values() lists no constant twice. */
  lemma ValuesDistinct()
    ensures forall i, j :: 0 <= i < j < |Values| ==> Values[i] != Values[j]
  {
    forall i, j | 0 <= i < j < |Values|
      ensures Values[i] != Values[j]
    {
      FromOrdinalInverse(i);
      FromOrdinalInverse(j);
    }
  }

  lemma KeyFingerprintOf(l: Rarity)
    ensures Fingerprint(ApiEnum.Key(Serialized, l)) == KeyFingerprint(l)
  {
    LowerIdempotent(Name(l));
  }

  lemma KeyFingerprintInjective(a: Rarity, b: Rarity)
    ensures KeyFingerprint(a) == KeyFingerprint(b) ==> a == b
  {
  }

  /** Distinct constants have distinct reverse-map keys. */
  lemma KeyInjective(a: Rarity, b: Rarity)
    ensures ApiEnum.Key(Serialized, a) == ApiEnum.Key(Serialized, b) ==> a == b
  {
    KeyFingerprintOf(a);
    KeyFingerprintOf(b);
    KeyFingerprintInjective(a, b);
  }

  /** The lowercased serialised forms are pairwise distinct, so the reverse map and the adapter can be built. */
  lemma DistinctKeys()
    ensures ApiEnum.DistinctKeys(Values, Serialized)
    ensures ApiEnum.RevMap(Values, Serialized).Ok?
    ensures ApiEnum.MakeAdapter(Values, Serialized).Ok?
  {
    ValuesDistinct();
    forall a, b
      ensures ApiEnum.Key(Serialized, a) == ApiEnum.Key(Serialized, b) ==> a == b
    {
      KeyInjective(a, b);
    }
    ApiEnum.DistinctKeysOfInjective(Values, Serialized);
  }

  lemma NameHasNoUnderscore(l: Rarity)
    ensures '_' !in Name(l)
  {
  }

  lemma KeyHasNoUnderscore(l: Rarity)
    ensures '_' !in ApiEnum.Key(Serialized, l)
  {
    NameHasNoUnderscore(l);
    LowerKeepsUnderscores(Name(l));
    LowerKeepsUnderscores(Serialized(l));
  }

  lemma NoConstantHasKey(k: string)
    requires forall l :: ApiEnum.Key(Serialized, l) != k
    ensures forall i :: 0 <= i < |Values| ==> ApiEnum.Key(Serialized, Values[i]) != k
  {
  }

  /** Writing a constant and reading it back gives the same constant. */
  lemma RoundTrip(l: Rarity)
    ensures ApiEnum.MakeAdapter(Values, Serialized).Ok?
    ensures ApiEnum.Read(ApiEnum.MakeAdapter(Values, Serialized).value, ApiEnum.Write(Serialized, Some(l))) == Ok(Some(l))
  {
    DistinctKeys();
    ValuesAt(l);
    KeyHasNoUnderscore(l);
    ApiEnum.ReadWriteRoundTrip(Values, Serialized, Some(l), []);
  }

  lemma UnrecognizedKey()
    ensures ApiEnum.Key(Serialized, Unrecognized) == "unrecognized"
  {
    LowerIdempotent(Name(Unrecognized));
  }

  /** Unrecognized provides the "unrecognized" key, so unknown names fall back to it. */
  lemma AdapterFallsBackToUnrecognized()
    ensures ApiEnum.MakeAdapter(Values, Serialized).Ok?
    ensures ApiEnum.MakeAdapter(Values, Serialized).value.unrecognized == Some(Unrecognized)
  {
    DistinctKeys();
    UnrecognizedKey();
    ValuesAt(Unrecognized);
    ApiEnum.AdapterEntry(Values, Serialized, 6);
  }

  /** A name that is no constant's key decodes to Unrecognized, through orUnrecognized and through the adapter. */
  lemma UnknownIsUnrecognized(name: string)
    requires forall l :: ApiEnum.Key(Serialized, l) != Lower(name)
    requires forall l :: ApiEnum.Key(Serialized, l) != ApiEnum.Normalise(name)
    ensures ApiEnum.OrUnrecognized(Values, Serialized, name) == Ok(Some(Unrecognized))
    ensures ApiEnum.MakeAdapter(Values, Serialized).Ok?
    ensures ApiEnum.Read(ApiEnum.MakeAdapter(Values, Serialized).value, ApiEnum.StringToken(name)) == Ok(Some(Unrecognized))
  {
    AdapterFallsBackToUnrecognized();
    NoConstantHasKey(Lower(name));
    NoConstantHasKey(ApiEnum.Normalise(name));
    ApiEnum.UnknownName(Values, Serialized, name);
  }

  /** A name or string whose normalised text is a constant's key decodes to that constant. */
  lemma Decodes(text: string, l: Rarity)
    requires ApiEnum.Normalise(text) == ApiEnum.Key(Serialized, l)
    ensures ApiEnum.MakeAdapter(Values, Serialized).Ok?
    ensures ApiEnum.Read(ApiEnum.MakeAdapter(Values, Serialized).value, ApiEnum.StringToken(text)) == Ok(Some(l))
    ensures ApiEnum.Read(ApiEnum.MakeAdapter(Values, Serialized).value, ApiEnum.NameToken(text)) == Ok(Some(l))
  {
    DistinctKeys();
    ValuesAt(l);
    ApiEnum.ReadKnownText(Values, Serialized, text, Ordinal(l));
  }

  /** libMtgRarity: the library rarity passed to the constructor (null for Unrecognized). */
  function LibRarity(r: Rarity): Option<LibMtg.CardRarity>
  {
    match r
    case Common => Some(LibMtg.Common) case Uncommon => Some(LibMtg.Uncommon)
    case Rare => Some(LibMtg.Rare) case Mythic => Some(LibMtg.MythicRare)
    case Bonus => Some(LibMtg.Special) case Special => Some(LibMtg.Special) case Unrecognized => None
  }

  /**
   * Common, Uncommon, Rare and Special map to the library rarity of the same name,
   * Mythic to MythicRare, Bonus also to Special, and only
   * Unrecognized to null; no rarity maps to BasicLand.
   */
  lemma LibRarityMeaning(r: Rarity)
    ensures r in {Common, Uncommon, Rare, Special} <==> LibRarity(r).Some? && LibMtg.RarityName(LibRarity(r).value) == Name(r)
    ensures LibRarity(r) == Some(LibMtg.MythicRare) <==> r == Mythic
    ensures LibRarity(r) == Some(LibMtg.Special) <==> r in {Bonus, Special}
    ensures LibRarity(r).None? <==> r == Unrecognized
    ensures LibRarity(r) != Some(LibMtg.BasicLand)
  {
  }

}
