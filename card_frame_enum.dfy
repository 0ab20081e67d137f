/** The frames of api/enums/CardFrame.java and the split and flip frames each selects. */
module CardFrameEnum {
  import opened Base
  import ApiEnum
  import LibMtg

  datatype CardFrame =
    | Old1993 | Old1997 | Modern2001 | Modern2003 | Khans2015 | Future | Unrecognized

  /** The constant with the given ordinal. */
  function FromOrdinal(i: nat): CardFrame
    requires i < 7
  {
    if i < 4 then (if i == 0 then Old1993 else if i == 1 then Old1997 else if i == 2 then Modern2001 else Modern2003)
      else (if i == 4 then Khans2015 else if i == 5 then Future else Unrecognized)
  }

  /** The constants by ordinal. */
  function ByOrdinal(): seq<CardFrame>
  {
    seq(7, i requires 0 <= i < 7 => FromOrdinal(i))
  }

  /** CardFrame.values(), in declaration order. */
  const Values: seq<CardFrame> := ByOrdinal()

  /** Enum.ordinal(). */
  function Ordinal(l: CardFrame): nat
  {
    match l
    case Old1993 => 0 case Old1997 => 1 case Modern2001 => 2 case Modern2003 => 3 case Khans2015 => 4 case Future => 5 case Unrecognized => 6
  }

  /** Enum.name(). */
  function Name(l: CardFrame): string
  {
    match l
    case Old1993 => "Old1993" case Old1997 => "Old1997" case Modern2001 => "Modern2001" case Modern2003 => "Modern2003"
    case Khans2015 => "Khans2015" case Future => "Future" case Unrecognized => "Unrecognized"
  }

  /** serialized(): the field given to the constructor. */
  function Serialized(l: CardFrame): string
  {
    match l
    case Old1993 => "1993" case Old1997 => "1997" case Modern2001 => "2001" case Modern2003 => "2003"
    case Khans2015 => "2015" case Future => "future" case Unrecognized => "unrecognized"
  }

  /** The fingerprint (length, first, second and last character) of each constant's reverse-map key. */
  function KeyFingerprint(l: CardFrame): (nat, char, char, char)
  {
    match l
    case Old1993 => (4, '1', '9', '3') case Old1997 => (4, '1', '9', '7') case Modern2001 => (4, '2', '0', '1')
    case Modern2003 => (4, '2', '0', '3') case Khans2015 => (4, '2', '0', '5') case Future => (6, 'f', 'u', 'e')
    case Unrecognized => (12, 'u', 'n', 'd')
  }

  lemma OrdinalInverse(l: CardFrame)
    ensures Ordinal(l) < 7 && FromOrdinal(Ordinal(l)) == l
  {
  }

  lemma FromOrdinalInverse(i: nat)
    requires i < 7
    ensures Ordinal(FromOrdinal(i)) == i
  {
  }

  /** values() lists every constant, at its ordinal. */
  lemma ValuesAt(l: CardFrame)
    ensures |Values| == 7 && Values[Ordinal(l)] == l
  {
    OrdinalInverse(l);
  }

  /** values() lists no constant twice. */
  lemma ValuesDistinct()
    ensures forall i, j :: 0 <= i < j < |Values| ==> Values[i] != Values[j]
  {
    forall i, j | 0 <= i < j < |Values|
      ensures Values[i] != Values[j]
    {
      FromOrdinalInverse(i);
      FromOrdinalInverse(j);
    }
  }

  lemma KeyFingerprintOf(l: CardFrame)
    ensures Fingerprint(ApiEnum.Key(Serialized, l)) == KeyFingerprint(l)
  {

  }

  lemma KeyFingerprintInjective(a: CardFrame, b: CardFrame)
    ensures KeyFingerprint(a) == KeyFingerprint(b) ==> a == b
  {
  }

  /** Distinct constants have distinct reverse-map keys. */
  lemma KeyInjective(a: CardFrame, b: CardFrame)
    ensures ApiEnum.Key(Serialized, a) == ApiEnum.Key(Serialized, b) ==> a == b
  {
    KeyFingerprintOf(a);
    KeyFingerprintOf(b);
    KeyFingerprintInjective(a, b);
  }

  /** The lowercased serialised forms are pairwise distinct, so the reverse map and the adapter can be built. */
  lemma DistinctKeys()
    ensures ApiEnum.DistinctKeys(Values, Serialized)
    ensures ApiEnum.RevMap(Values, Serialized).Ok?
    ensures ApiEnum.MakeAdapter(Values, Serialized).Ok?
  {
    ValuesDistinct();
    forall a, b
      ensures ApiEnum.Key(Serialized, a) == ApiEnum.Key(Serialized, b) ==> a == b
    {
      KeyInjective(a, b);
    }
    ApiEnum.DistinctKeysOfInjective(Values, Serialized);
  }

  lemma NameHasNoUnderscore(l: CardFrame)
    ensures '_' !in Name(l)
  {
  }

  lemma KeyHasNoUnderscore(l: CardFrame)
    ensures '_' !in ApiEnum.Key(Serialized, l)
  {
    assert '_' !in Serialized(l);
    LowerKeepsUnderscores(Serialized(l));
  }

  lemma NoConstantHasKey(k: string)
    requires forall l :: ApiEnum.Key(Serialized, l) != k
    ensures forall i :: 0 <= i < |Values| ==> ApiEnum.Key(Serialized, Values[i]) != k
  {
  }

  /** Writing a constant and reading it back gives the same constant. */
  lemma RoundTrip(l: CardFrame)
    ensures ApiEnum.MakeAdapter(Values, Serialized).Ok?
    ensures ApiEnum.Read(ApiEnum.MakeAdapter(Values, Serialized).value, ApiEnum.Write(Serialized, Some(l))) == Ok(Some(l))
  {
    DistinctKeys();
    ValuesAt(l);
    KeyHasNoUnderscore(l);
    ApiEnum.ReadWriteRoundTrip(Values, Serialized, Some(l), []);
  }

  lemma UnrecognizedKey()
    ensures ApiEnum.Key(Serialized, Unrecognized) == "unrecognized"
  {

  }

  /** Unrecognized provides the "unrecognized" key, so unknown names fall back to it. */
  lemma AdapterFallsBackToUnrecognized()
    ensures ApiEnum.MakeAdapter(Values, Serialized).Ok?
    ensures ApiEnum.MakeAdapter(Values, Serialized).value.unrecognized == Some(Unrecognized)
  {
    DistinctKeys();
    UnrecognizedKey();
    ValuesAt(Unrecognized);
    ApiEnum.AdapterEntry(Values, Serialized, 6);
  }

  /** A name that is no constant's key decodes to Unrecognized, through orUnrecognized and through the adapter. */
  lemma UnknownIsUnrecognized(name: string)
    requires forall l :: ApiEnum.Key(Serialized, l) != Lower(name)
    requires forall l :: ApiEnum.Key(Serialized, l) != ApiEnum.Normalise(name)
    ensures ApiEnum.OrUnrecognized(Values, Serialized, name) == Ok(Some(Unrecognized))
    ensures ApiEnum.MakeAdapter(Values, Serialized).Ok?
    ensures ApiEnum.Read(ApiEnum.MakeAdapter(Values, Serialized).value, ApiEnum.StringToken(name)) == Ok(Some(Unrecognized))
  {
    AdapterFallsBackToUnrecognized();
    NoConstantHasKey(Lower(name));
    NoConstantHasKey(ApiEnum.Normalise(name));
    ApiEnum.UnknownName(Values, Serialized, name);
  }

  /** A name or string whose normalised text is a constant's key decodes to that constant. */
  lemma Decodes(text: string, l: CardFrame)
    requires ApiEnum.Normalise(text) == ApiEnum.Key(Serialized, l)
    ensures ApiEnum.MakeAdapter(Values, Serialized).Ok?
    ensures ApiEnum.Read(ApiEnum.MakeAdapter(Values, Serialized).value, ApiEnum.StringToken(text)) == Ok(Some(l))
    ensures ApiEnum.Read(ApiEnum.MakeAdapter(Values, Serialized).value, ApiEnum.NameToken(text)) == Ok(Some(l))
  {
    DistinctKeys();
    ValuesAt(l);
    ApiEnum.ReadKnownText(Values, Serialized, text, Ordinal(l));
  }

  /** The `modern` argument of the constructor. */
  function IsModern(f: CardFrame): bool
  {
    !(f == Old1993 || f == Old1997)
  }

  /** splitLeftFrame. */
  function SplitLeftFrame(f: CardFrame): LibMtg.StandardFrame
  {
    if IsModern(f) then LibMtg.SplitLeftModern else LibMtg.SplitLeftFull
  }

  /** splitRightFrame. */
  function SplitRightFrame(f: CardFrame): LibMtg.StandardFrame
  {
    if IsModern(f) then LibMtg.SplitRightModern else LibMtg.SplitRightFull
  }

  /** flipTopFrame. */
  function FlipTopFrame(f: CardFrame): LibMtg.StandardFrame
  {
    if IsModern(f) then LibMtg.FlipTopModern else LibMtg.FlipTopFull
  }

  /** flipBottomFrame. */
  function FlipBottomFrame(f: CardFrame): LibMtg.StandardFrame
  {
    if IsModern(f) then LibMtg.FlipBottomModern else LibMtg.FlipBottomFull
  }

  /**
   * Old1993 and Old1997 use the four *Full frames and every other frame,
   * Unrecognized included, the four *Modern frames; each field holds the
   * frame of its own role.
   */
  lemma FramesAgree(f: CardFrame)
    ensures LibMtg.IsModernFrame(SplitLeftFrame(f)) <==> f !in {Old1993, Old1997}
    ensures LibMtg.IsModernFrame(SplitRightFrame(f)) <==> f !in {Old1993, Old1997}
    ensures LibMtg.IsModernFrame(FlipTopFrame(f)) <==> f !in {Old1993, Old1997}
    ensures LibMtg.IsModernFrame(FlipBottomFrame(f)) <==> f !in {Old1993, Old1997}
    ensures SplitLeftFrame(f) in {LibMtg.SplitLeftModern, LibMtg.SplitLeftFull}
    ensures SplitRightFrame(f) in {LibMtg.SplitRightModern, LibMtg.SplitRightFull}
    ensures FlipTopFrame(f) in {LibMtg.FlipTopModern, LibMtg.FlipTopFull}
    ensures FlipBottomFrame(f) in {LibMtg.FlipBottomModern, LibMtg.FlipBottomFull}
  {
  }

  /** The year frames serialise as their four-digit year. */
  lemma YearFrames(f: CardFrame)
    ensures f !in {Future, Unrecognized} <==> |Serialized(f)| == 4 && AllDigits(Serialized(f))
  {
  }

}
