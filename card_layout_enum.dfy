/** The card layouts of api/enums/CardLayout.java. */
module CardLayoutEnum {
  import opened Base
  import ApiEnum

  datatype CardLayout =
    | Normal | Split | Flip | Transform | Meld | Leveler | Planar | Scheme
    | Vanguard | Token | Emblem | DoubleFacedToken | Host | Augment | Saga | Adventure
    | ArtSeries | ModalDFC | Class | ReversibleCard | Mutate | Prototype | Case | Unrecognized

  /** The constant with the given ordinal. */
  function FromOrdinal(i: nat): CardLayout
    requires i < 24
  {
    if i < 12 then (if i < 6 then (if i == 0 then Normal else if i == 1 then Split else if i == 2 then Flip else if i == 3 then Transform else if i == 4 then Meld else Leveler)
      else (if i == 6 then Planar else if i == 7 then Scheme else if i == 8 then Vanguard else if i == 9 then Token else if i == 10 then Emblem else DoubleFacedToken))
      else (if i < 18 then (if i == 12 then Host else if i == 13 then Augment else if i == 14 then Saga else if i == 15 then Adventure else if i == 16 then ArtSeries else ModalDFC)
      else (if i == 18 then Class else if i == 19 then ReversibleCard else if i == 20 then Mutate else if i == 21 then Prototype else if i == 22 then Case else Unrecognized))
  }

  /** The constants by ordinal. */
  function ByOrdinal(): seq<CardLayout>
  {
    seq(24, i requires 0 <= i < 24 => FromOrdinal(i))
  }

  /** CardLayout.values(), in declaration order. */
  const Values: seq<CardLayout> := ByOrdinal()

  /** Enum.ordinal(). */
  function Ordinal(l: CardLayout): nat
  {
    match l
    case Normal => 0 case Split => 1 case Flip => 2 case Transform => 3 case Meld => 4 case Leveler => 5 case Planar => 6 case Scheme => 7
    case Vanguard => 8 case Token => 9 case Emblem => 10 case DoubleFacedToken => 11 case Host => 12 case Augment => 13 case Saga => 14 case Adventure => 15
    case ArtSeries => 16 case ModalDFC => 17 case Class => 18 case ReversibleCard => 19 case Mutate => 20 case Prototype => 21 case Case => 22 case Unrecognized => 23
  }

  /** Enum.name(). */
  function Name(l: CardLayout): string
  {
    match l
    case Normal => "Normal" case Split => "Split" case Flip => "Flip" case Transform => "Transform"
    case Meld => "Meld" case Leveler => "Leveler" case Planar => "Planar" case Scheme => "Scheme"
    case Vanguard => "Vanguard" case Token => "Token" case Emblem => "Emblem" case DoubleFacedToken => "DoubleFacedToken"
    case Host => "Host" case Augment => "Augment" case Saga => "Saga" case Adventure => "Adventure"
    case ArtSeries => "ArtSeries" case ModalDFC => "ModalDFC" case Class => "Class" case ReversibleCard => "ReversibleCard"
    case Mutate => "Mutate" case Prototype => "Prototype" case Case => "Case" case Unrecognized => "Unrecognized"
  }

  /** serialized(): the lowercased constant name. */
  function Serialized(l: CardLayout): string
  {
    Lower(Name(l))
  }

  /** The fingerprint (length, first, second and last character) of each constant's reverse-map key. */
  function KeyFingerprint(l: CardLayout): (nat, char, char, char)
  {
    match l
    case Normal => (6, 'n', 'o', 'l') case Split => (5, 's', 'p', 't') case Flip => (4, 'f', 'l', 'p')
    case Transform => (9, 't', 'r', 'm') case Meld => (4, 'm', 'e', 'd') case Leveler => (7, 'l', 'e', 'r')
    case Planar => (6, 'p', 'l', 'r') case Scheme => (6, 's', 'c', 'e') case Vanguard => (8, 'v', 'a', 'd')
    case Token => (5, 't', 'o', 'n') case Emblem => (6, 'e', 'm', 'm') case DoubleFacedToken => (16, 'd', 'o', 'n')
    case Host => (4, 'h', 'o', 't') case Augment => (7, 'a', 'u', 't') case Saga => (4, 's', 'a', 'a')
    case Adventure => (9, 'a', 'd', 'e') case ArtSeries => (9, 'a', 'r', 's') case ModalDFC => (8, 'm', 'o', 'c')
    case Class => (5, 'c', 'l', 's') case ReversibleCard => (14, 'r', 'e', 'd') case Mutate => (6, 'm', 'u', 'e')
    case Prototype => (9, 'p', 'r', 'e') case Case => (4, 'c', 'a', 'e') case Unrecognized => (12, 'u', 'n', 'd')
  }

  lemma OrdinalInverse(l: CardLayout)
    ensures Ordinal(l) < 24 && FromOrdinal(Ordinal(l)) == l
  {
  }

  lemma FromOrdinalInverse(i: nat)
    requires i < 24
    ensures Ordinal(FromOrdinal(i)) == i
  {
  }

  /** values() lists every constant, at its ordinal. */
  lemma ValuesAt(l: CardLayout)
    ensures |Values| == 24 && Values[Ordinal(l)] == l
  {
    OrdinalInverse(l);
  }

  /** values() lists no constant twice. */
  lemma ValuesDistinct()
    ensures forall i, j :: 0 <= i < j < |Values| ==> Values[i] != Values[j]
  {
    forall i, j | 0 <= i < j < |Values|
      ensures Values[i] != Values[j]
    {
      FromOrdinalInverse(i);
      FromOrdinalInverse(j);
    }
  }

  lemma KeyFingerprintOf(l: CardLayout)
    ensures Fingerprint(ApiEnum.Key(Serialized, l)) == KeyFingerprint(l)
  {
    LowerIdempotent(Name(l));
  }

  lemma KeyFingerprintInjective(a: CardLayout, b: CardLayout)
    ensures KeyFingerprint(a) == KeyFingerprint(b) ==> a == b
  {
  }

  /** Distinct constants have distinct reverse-map keys. */
  lemma KeyInjective(a: CardLayout, b: CardLayout)
    ensures ApiEnum.Key(Serialized, a) == ApiEnum.Key(Serialized, b) ==> a == b
  {
    KeyFingerprintOf(a);
    KeyFingerprintOf(b);
    KeyFingerprintInjective(a, b);
  }

  /** The lowercased serialised forms are pairwise distinct, so the reverse map and the adapter can be built. */
  lemma DistinctKeys()
    ensures ApiEnum.DistinctKeys(Values, Serialized)
    ensures ApiEnum.RevMap(Values, Serialized).Ok?
    ensures ApiEnum.MakeAdapter(Values, Serialized).Ok?
  {
    ValuesDistinct();
    forall a, b
      ensures ApiEnum.Key(Serialized, a) == ApiEnum.Key(Serialized, b) ==> a == b
    {
      KeyInjective(a, b);
    }
    ApiEnum.DistinctKeysOfInjective(Values, Serialized);
  }

  lemma NameHasNoUnderscore(l: CardLayout)
    ensures '_' !in Name(l)
  {
  }

  lemma KeyHasNoUnderscore(l: CardLayout)
    ensures '_' !in ApiEnum.Key(Serialized, l)
  {
    NameHasNoUnderscore(l);
    LowerKeepsUnderscores(Name(l));
    LowerKeepsUnderscores(Serialized(l));
  }

  lemma NoConstantHasKey(k: string)
    requires forall l :: ApiEnum.Key(Serialized, l) != k
    ensures forall i :: 0 <= i < |Values| ==> ApiEnum.Key(Serialized, Values[i]) != k
  {
  }

  /** Writing a constant and reading it back gives the same constant. */
  lemma RoundTrip(l: CardLayout)
    ensures ApiEnum.MakeAdapter(Values, Serialized).Ok?
    ensures ApiEnum.Read(ApiEnum.MakeAdapter(Values, Serialized).value, ApiEnum.Write(Serialized, Some(l))) == Ok(Some(l))
  {
    DistinctKeys();
    ValuesAt(l);
    KeyHasNoUnderscore(l);
    ApiEnum.ReadWriteRoundTrip(Values, Serialized, Some(l), []);
  }

  lemma UnrecognizedKey()
    ensures ApiEnum.Key(Serialized, Unrecognized) == "unrecognized"
  {
    LowerIdempotent(Name(Unrecognized));
  }

  /** Unrecognized provides the "unrecognized" key, so unknown names fall back to it. */
  lemma AdapterFallsBackToUnrecognized()
    ensures ApiEnum.MakeAdapter(Values, Serialized).Ok?
    ensures ApiEnum.MakeAdapter(Values, Serialized).value.unrecognized == Some(Unrecognized)
  {
    DistinctKeys();
    UnrecognizedKey();
    ValuesAt(Unrecognized);
    ApiEnum.AdapterEntry(Values, Serialized, 23);
  }

  /** A name that is no constant's key decodes to Unrecognized, through orUnrecognized and through the adapter. */
  lemma UnknownIsUnrecognized(name: string)
    requires forall l :: ApiEnum.Key(Serialized, l) != Lower(name)
    requires forall l :: ApiEnum.Key(Serialized, l) != ApiEnum.Normalise(name)
    ensures ApiEnum.OrUnrecognized(Values, Serialized, name) == Ok(Some(Unrecognized))
    ensures ApiEnum.MakeAdapter(Values, Serialized).Ok?
    ensures ApiEnum.Read(ApiEnum.MakeAdapter(Values, Serialized).value, ApiEnum.StringToken(name)) == Ok(Some(Unrecognized))
  {
    AdapterFallsBackToUnrecognized();
    NoConstantHasKey(Lower(name));
    NoConstantHasKey(ApiEnum.Normalise(name));
    ApiEnum.UnknownName(Values, Serialized, name);
  }

  /** A name or string whose normalised text is a constant's key decodes to that constant. */
  lemma Decodes(text: string, l: CardLayout)
    requires ApiEnum.Normalise(text) == ApiEnum.Key(Serialized, l)
    ensures ApiEnum.MakeAdapter(Values, Serialized).Ok?
    ensures ApiEnum.Read(ApiEnum.MakeAdapter(Values, Serialized).value, ApiEnum.StringToken(text)) == Ok(Some(l))
    ensures ApiEnum.Read(ApiEnum.MakeAdapter(Values, Serialized).value, ApiEnum.NameToken(text)) == Ok(Some(l))
  {
    DistinctKeys();
    ValuesAt(l);
    ApiEnum.ReadKnownText(Values, Serialized, text, Ordinal(l));
  }

  lemma NormalisedModalDFC()
    ensures ApiEnum.Normalise("modal_dfc") == "modaldfc"
  {
    ApiEnum.NormaliseTwoWords("modal_dfc", "modal", "dfc");
  }

  lemma KeyModalDFC()
    ensures ApiEnum.Key(Serialized, ModalDFC) == "modaldfc"
  {
    LowerIdempotent(Name(ModalDFC));
    assert Lower("ModalDFC") == "modaldfc";
  }

  /** "modal_dfc" decodes to ModalDFC. */
  lemma DecodesModalDFC()
    ensures ApiEnum.MakeAdapter(Values, Serialized).Ok?
    ensures ApiEnum.Read(ApiEnum.MakeAdapter(Values, Serialized).value, ApiEnum.StringToken("modal_dfc")) == Ok(Some(ModalDFC))
  {
    NormalisedModalDFC();
    KeyModalDFC();
    Decodes("modal_dfc", ModalDFC);
  }

  lemma NormalisedDoubleFacedToken()
    ensures ApiEnum.Normalise("double_faced_token") == "doublefacedtoken"
  {
    assert "double" + "_" + "faced" == "double_faced";
    assert "double_faced" + "_" + "token" == "double_faced_token";
    ApiEnum.NormaliseThreeWords("double_faced_token", "double", "faced", "token");
  }

  lemma KeyDoubleFacedToken()
    ensures ApiEnum.Key(Serialized, DoubleFacedToken) == "doublefacedtoken"
  {
    LowerIdempotent(Name(DoubleFacedToken));
    assert Lower("DoubleFacedToken") == "doublefacedtoken";
  }

  /** "double_faced_token" decodes to DoubleFacedToken. */
  lemma DecodesDoubleFacedToken()
    ensures ApiEnum.MakeAdapter(Values, Serialized).Ok?
    ensures ApiEnum.Read(ApiEnum.MakeAdapter(Values, Serialized).value, ApiEnum.StringToken("double_faced_token")) == Ok(Some(DoubleFacedToken))
  {
    NormalisedDoubleFacedToken();
    KeyDoubleFacedToken();
    Decodes("double_faced_token", DoubleFacedToken);
  }

  lemma NormalisedArtSeries()
    ensures ApiEnum.Normalise("art_series") == "artseries"
  {
    ApiEnum.NormaliseTwoWords("art_series", "art", "series");
  }

  lemma KeyArtSeries()
    ensures ApiEnum.Key(Serialized, ArtSeries) == "artseries"
  {
    LowerIdempotent(Name(ArtSeries));
    assert Lower("ArtSeries") == "artseries";
  }

  /** "art_series" decodes to ArtSeries. */
  lemma DecodesArtSeries()
    ensures ApiEnum.MakeAdapter(Values, Serialized).Ok?
    ensures ApiEnum.Read(ApiEnum.MakeAdapter(Values, Serialized).value, ApiEnum.StringToken("art_series")) == Ok(Some(ArtSeries))
  {
    NormalisedArtSeries();
    KeyArtSeries();
    Decodes("art_series", ArtSeries);
  }

  lemma NormalisedReversibleCard()
    ensures ApiEnum.Normalise("reversible_card") == "reversiblecard"
  {
    ApiEnum.NormaliseTwoWords("reversible_card", "reversible", "card");
  }

  lemma KeyReversibleCard()
    ensures ApiEnum.Key(Serialized, ReversibleCard) == "reversiblecard"
  {
    LowerIdempotent(Name(ReversibleCard));
    assert Lower("ReversibleCard") == "reversiblecard";
  }

  /** "reversible_card" decodes to ReversibleCard. */
  lemma DecodesReversibleCard()
    ensures ApiEnum.MakeAdapter(Values, Serialized).Ok?
    ensures ApiEnum.Read(ApiEnum.MakeAdapter(Values, Serialized).value, ApiEnum.StringToken("reversible_card")) == Ok(Some(ReversibleCard))
  {
    NormalisedReversibleCard();
    KeyReversibleCard();
    Decodes("reversible_card", ReversibleCard);
  }

}
