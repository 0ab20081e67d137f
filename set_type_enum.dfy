/** The set types of api/enums/SetType.java and their library set types. */
module SetTypeEnum {
  import opened Base
  import ApiEnum
  import LibMtg

  datatype SetType =
    | Core | Expansion | Masters | Masterpiece | FromTheVault | Spellbook | PremiumDeck | DuelDeck
    | DraftInnovation | TreasureChest | Commander | Planechase | Archenemy | Vanguard | Funny | Starter
    | Box | Promo | Token | Memorabilia | Alchemy | Arsenal | Minigame | Unrecognized

  /** The constant with the given ordinal. */
  function FromOrdinal(i: nat): SetType
    requires i < 24
  {
    if i < 12 then (if i < 6 then (if i == 0 then Core else if i == 1 then Expansion else if i == 2 then Masters else if i == 3 then Masterpiece else if i == 4 then FromTheVault else Spellbook)
      else (if i == 6 then PremiumDeck else if i == 7 then DuelDeck else if i == 8 then DraftInnovation else if i == 9 then TreasureChest else if i == 10 then Commander else Planechase))
      else (if i < 18 then (if i == 12 then Archenemy else if i == 13 then Vanguard else if i == 14 then Funny else if i == 15 then Starter else if i == 16 then Box else Promo)
      else (if i == 18 then Token else if i == 19 then Memorabilia else if i == 20 then Alchemy else if i == 21 then Arsenal else if i == 22 then Minigame else Unrecognized))
  }

  /** The constants by ordinal. */
  function ByOrdinal(): seq<SetType>
  {
    seq(24, i requires 0 <= i < 24 => FromOrdinal(i))
  }

  /** SetType.values(), in declaration order. */
  const Values: seq<SetType> := ByOrdinal()

  /** Enum.ordinal(). */
  function Ordinal(l: SetType): nat
  {
    match l
    case Core => 0 case Expansion => 1 case Masters => 2 case Masterpiece => 3 case FromTheVault => 4 case Spellbook => 5 case PremiumDeck => 6 case DuelDeck => 7
    case DraftInnovation => 8 case TreasureChest => 9 case Commander => 10 case Planechase => 11 case Archenemy => 12 case Vanguard => 13 case Funny => 14 case Starter => 15
    case Box => 16 case Promo => 17 case Token => 18 case Memorabilia => 19 case Alchemy => 20 case Arsenal => 21 case Minigame => 22 case Unrecognized => 23
  }

  /** Enum.name(). */
  function Name(l: SetType): string
  {
    match l
    case Core => "Core" case Expansion => "Expansion" case Masters => "Masters" case Masterpiece => "Masterpiece"
    case FromTheVault => "FromTheVault" case Spellbook => "Spellbook" case PremiumDeck => "PremiumDeck" case DuelDeck => "DuelDeck"
    case DraftInnovation => "DraftInnovation" case TreasureChest => "TreasureChest" case Commander => "Commander" case Planechase => "Planechase"
    case Archenemy => "Archenemy" case Vanguard => "Vanguard" case Funny => "Funny" case Starter => "Starter"
    case Box => "Box" case Promo => "Promo" case Token => "Token" case Memorabilia => "Memorabilia"
    case Alchemy => "Alchemy" case Arsenal => "Arsenal" case Minigame => "Minigame" case Unrecognized => "Unrecognized"
  }

  /** serialized(): the lowercased constant name. */
  function Serialized(l: SetType): string
  {
    Lower(Name(l))
  }

  /** The fingerprint (length, first, second and last character) of each constant's reverse-map key. */
  function KeyFingerprint(l: SetType): (nat, char, char, char)
  {
    match l
    case Core => (4, 'c', 'o', 'e') case Expansion => (9, 'e', 'x', 'n') case Masters => (7, 'm', 'a', 's')
    case Masterpiece => (11, 'm', 'a', 'e') case FromTheVault => (12, 'f', 'r', 't') case Spellbook => (9, 's', 'p', 'k')
    case PremiumDeck => (11, 'p', 'r', 'k') case DuelDeck => (8, 'd', 'u', 'k') case DraftInnovation => (15, 'd', 'r', 'n')
    case TreasureChest => (13, 't', 'r', 't') case Commander => (9, 'c', 'o', 'r') case Planechase => (10, 'p', 'l', 'e')
    case Archenemy => (9, 'a', 'r', 'y') case Vanguard => (8, 'v', 'a', 'd') case Funny => (5, 'f', 'u', 'y')
    case Starter => (7, 's', 't', 'r') case Box => (3, 'b', 'o', 'x') case Promo => (5, 'p', 'r', 'o')
    case Token => (5, 't', 'o', 'n') case Memorabilia => (11, 'm', 'e', 'a') case Alchemy => (7, 'a', 'l', 'y')
    case Arsenal => (7, 'a', 'r', 'l') case Minigame => (8, 'm', 'i', 'e') case Unrecognized => (12, 'u', 'n', 'd')
  }

  lemma OrdinalInverse(l: SetType)
    ensures Ordinal(l) < 24 && FromOrdinal(Ordinal(l)) == l
  {
  }

  lemma FromOrdinalInverse(i: nat)
    requires i < 24
    ensures Ordinal(FromOrdinal(i)) == i
  {
  }

  /** values() lists every constant, at its ordinal. */
  lemma ValuesAt(l: SetType)
    ensures |Values| == 24 && Values[Ordinal(l)] == l
  {
    OrdinalInverse(l);
  }

  /** values() lists no constant twice. */
  lemma ValuesDistinct()
    ensures forall i, j :: 0 <= i < j < |Values| ==> Values[i] != Values[j]
  {
    forall i, j | 0 <= i < j < |Values|
      ensures Values[i] != Values[j]
    {
      FromOrdinalInverse(i);
      FromOrdinalInverse(j);
    }
  }

  lemma KeyFingerprintOf(l: SetType)
    ensures Fingerprint(ApiEnum.Key(Serialized, l)) == KeyFingerprint(l)
  {
    LowerIdempotent(Name(l));
  }

  lemma KeyFingerprintInjective(a: SetType, b: SetType)
    ensures KeyFingerprint(a) == KeyFingerprint(b) ==> a == b
  {
  }

  /** Distinct constants have distinct reverse-map keys. */
  lemma KeyInjective(a: SetType, b: SetType)
    ensures ApiEnum.Key(Serialized, a) == ApiEnum.Key(Serialized, b) ==> a == b
  {
    KeyFingerprintOf(a);
    KeyFingerprintOf(b);
    KeyFingerprintInjective(a, b);
  }

  /** The lowercased serialised forms are pairwise distinct, so the reverse map and the adapter can be built. */
  lemma DistinctKeys()
    ensures ApiEnum.DistinctKeys(Values, Serialized)
    ensures ApiEnum.RevMap(Values, Serialized).Ok?
    ensures ApiEnum.MakeAdapter(Values, Serialized).Ok?
  {
    ValuesDistinct();
    forall a, b
      ensures ApiEnum.Key(Serialized, a) == ApiEnum.Key(Serialized, b) ==> a == b
    {
      KeyInjective(a, b);
    }
    ApiEnum.DistinctKeysOfInjective(Values, Serialized);
  }

  lemma NameHasNoUnderscore(l: SetType)
    ensures '_' !in Name(l)
  {
  }

  lemma KeyHasNoUnderscore(l: SetType)
    ensures '_' !in ApiEnum.Key(Serialized, l)
  {
    NameHasNoUnderscore(l);
    LowerKeepsUnderscores(Name(l));
    LowerKeepsUnderscores(Serialized(l));
  }

  lemma NoConstantHasKey(k: string)
    requires forall l :: ApiEnum.Key(Serialized, l) != k
    ensures forall i :: 0 <= i < |Values| ==> ApiEnum.Key(Serialized, Values[i]) != k
  {
  }

  /** Writing a constant and reading it back gives the same constant. */
  lemma RoundTrip(l: SetType)
    ensures ApiEnum.MakeAdapter(Values, Serialized).Ok?
    ensures ApiEnum.Read(ApiEnum.MakeAdapter(Values, Serialized).value, ApiEnum.Write(Serialized, Some(l))) == Ok(Some(l))
  {
    DistinctKeys();
    ValuesAt(l);
    KeyHasNoUnderscore(l);
    ApiEnum.ReadWriteRoundTrip(Values, Serialized, Some(l), []);
  }

  lemma UnrecognizedKey()
    ensures ApiEnum.Key(Serialized, Unrecognized) == "unrecognized"
  {
    LowerIdempotent(Name(Unrecognized));
  }

  /** Unrecognized provides the "unrecognized" key, so unknown names fall back to it. */
  lemma AdapterFallsBackToUnrecognized()
    ensures ApiEnum.MakeAdapter(Values, Serialized).Ok?
    ensures ApiEnum.MakeAdapter(Values, Serialized).value.unrecognized == Some(Unrecognized)
  {
    DistinctKeys();
    UnrecognizedKey();
    ValuesAt(Unrecognized);
    ApiEnum.AdapterEntry(Values, Serialized, 23);
  }

  /** A name that is no constant's key decodes to Unrecognized, through orUnrecognized and through the adapter. */
  lemma UnknownIsUnrecognized(name: string)
    requires forall l :: ApiEnum.Key(Serialized, l) != Lower(name)
    requires forall l :: ApiEnum.Key(Serialized, l) != ApiEnum.Normalise(name)
    ensures ApiEnum.OrUnrecognized(Values, Serialized, name) == Ok(Some(Unrecognized))
    ensures ApiEnum.MakeAdapter(Values, Serialized).Ok?
    ensures ApiEnum.Read(ApiEnum.MakeAdapter(Values, Serialized).value, ApiEnum.StringToken(name)) == Ok(Some(Unrecognized))
  {
    AdapterFallsBackToUnrecognized();
    NoConstantHasKey(Lower(name));
    NoConstantHasKey(ApiEnum.Normalise(name));
    ApiEnum.UnknownName(Values, Serialized, name);
  }

  /** A name or string whose normalised text is a constant's key decodes to that constant. */
  lemma Decodes(text: string, l: SetType)
    requires ApiEnum.Normalise(text) == ApiEnum.Key(Serialized, l)
    ensures ApiEnum.MakeAdapter(Values, Serialized).Ok?
    ensures ApiEnum.Read(ApiEnum.MakeAdapter(Values, Serialized).value, ApiEnum.StringToken(text)) == Ok(Some(l))
    ensures ApiEnum.Read(ApiEnum.MakeAdapter(Values, Serialized).value, ApiEnum.NameToken(text)) == Ok(Some(l))
  {
    DistinctKeys();
    ValuesAt(l);
    ApiEnum.ReadKnownText(Values, Serialized, text, Ordinal(l));
  }

  /** libmtgType: the library set type passed to the constructor (null for Unrecognized). */
  function LibSetKind(t: SetType): Option<LibMtg.SetKind>
  {
    match t
    case Core => Some(LibMtg.StandardSet) case Expansion => Some(LibMtg.StandardSet)
    case Masters => Some(LibMtg.Remaster) case Masterpiece => Some(LibMtg.Promo)
    case FromTheVault => Some(LibMtg.Remaster) case Spellbook => Some(LibMtg.Remaster)
    case PremiumDeck => Some(LibMtg.Precon) case DuelDeck => Some(LibMtg.Precon)
    case DraftInnovation => Some(LibMtg.StandardSet) case TreasureChest => Some(LibMtg.Other)
    case Commander => Some(LibMtg.Precon) case Planechase => Some(LibMtg.Other)
    case Archenemy => Some(LibMtg.Other) case Vanguard => Some(LibMtg.Other)
    case Funny => Some(LibMtg.StandardSet) case Starter => Some(LibMtg.StandardSet)
    case Box => Some(LibMtg.Remaster) case Promo => Some(LibMtg.Promo) case Token => Some(LibMtg.Other)
    case Memorabilia => Some(LibMtg.Other) case Alchemy => Some(LibMtg.Other)
    case Arsenal => Some(LibMtg.Other) case Minigame => Some(LibMtg.Other) case Unrecognized => None
  }

  /** Which set types map to which library set type. */
  lemma LibSetKindMeaning(t: SetType)
    ensures LibSetKind(t) == Some(LibMtg.StandardSet) <==> t in {Core, Expansion, DraftInnovation, Funny, Starter}
    ensures LibSetKind(t) == Some(LibMtg.Remaster) <==> t in {Masters, FromTheVault, Spellbook, Box}
    ensures LibSetKind(t) == Some(LibMtg.Precon) <==> t in {PremiumDeck, DuelDeck, Commander}
    ensures LibSetKind(t) == Some(LibMtg.Promo) <==> t in {Masterpiece, Promo}
    ensures LibSetKind(t).None? <==> t == Unrecognized
    ensures LibSetKind(t) == Some(LibMtg.Other) <==> t in {TreasureChest, Planechase, Archenemy, Vanguard, Token, Memorabilia, Alchemy, Arsenal, Minigame}
  {
  }

}
