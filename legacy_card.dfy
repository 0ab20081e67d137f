/**
 * ScryfallCard.java: the older card class, built from one record (and a map
 * of back-side records by name) with a face per kind chosen by layout.  Its
 * faces fill their text fields' nulls with "" and compute their mana cost,
 * type line and colours once, on first use.
 *
 * This class was written against an older record API and card library: its
 * layout constants (with Plane and Phenomenon) are given as LegacyLayout
 * beside the record, and its mana-cost parser, the parsed cost's colours and
 * its type-line parser are the parameters in Library.
 */
module LegacyCards {
  import opened Base
  import opened Util
  import opened FaceKinds
  import LibMtg
  import ApiCard
  import ColorEnum

  /** The older API's layout constants that the constructor's switch names; OtherLayout stands for the rest. */
  datatype LegacyLayout =
    | Normal | Plane | Token | Emblem | Scheme | Leveler | Vanguard | Phenomenon
    | Meld | Transform | Flip | Split | OtherLayout

  /**
   * The card library calls the faces make: BasicManaCost.parse, a parsed
   * cost's color() together with whether the set it returns is an EnumSet
   * (its class is the library's choice), and BasicCardTypeLine.parse.
   */
  datatype Library<!M, T> = Library(
    parseMana: string -> M, manaColors: M -> set<LibMtg.Color>, manaColorsIsEnumSet: M -> bool, parseType: string -> T)

  // ---------------------------------------------------------------- what each face reads

  /** A whole record as PartFace leaves it: every text field it reads has its null replaced by "". */
  datatype PartText = PartText(
    name: string, manaCost: string, typeLine: string, oracleText: string, power: string, toughness: string,
    loyalty: string, handModifier: string, lifeModifier: string,
    colors: Option<set<ColorEnum.Color>>, colorIdentity: Option<set<ColorEnum.Color>>)

  /** A face entry as FaceFace and its subclasses leave it: name, mana cost, type line, rules, power and toughness non-null. */
  datatype EntryText = EntryText(name: string, manaCost: string, typeLine: string, oracleText: string, power: string, toughness: string)

  /** PartFace's constructor. */
  function PartTextOf(c: ApiCard.Card): PartText
  {
    PartText(Or(c.name, ""), Or(c.manaCost, ""), Or(c.typeLine, ""), Or(c.oracleText, ""), Or(c.power, ""), Or(c.toughness, ""),
             Or(c.loyalty, ""), Or(c.handModifier, ""), Or(c.lifeModifier, ""), c.colors, c.colorIdentity)
  }

  /** FaceFace's constructor, with the mana cost its subclasses fill in. */
  function EntryTextOf(f: ApiCard.Face): EntryText
  {
    EntryText(Or(f.name, ""), Or(f.manaCost, ""), Or(f.typeLine, ""), Or(f.oracleText, ""), Or(f.power, ""), Or(f.toughness, ""))
  }

  /** The text a PartFace shows is the record's where set and "" where null. */
  lemma PartTextMeaning(c: ApiCard.Card)
    ensures var p := PartTextOf(c);
      && (c.name.Some? ==> p.name == c.name.value) && (c.name.None? ==> p.name == "")
      && (c.manaCost.Some? ==> p.manaCost == c.manaCost.value) && (c.manaCost.None? ==> p.manaCost == "")
      && (c.typeLine.Some? ==> p.typeLine == c.typeLine.value) && (c.typeLine.None? ==> p.typeLine == "")
      && (c.oracleText.Some? ==> p.oracleText == c.oracleText.value) && (c.oracleText.None? ==> p.oracleText == "")
      && (c.power.Some? ==> p.power == c.power.value) && (c.power.None? ==> p.power == "")
      && (c.toughness.Some? ==> p.toughness == c.toughness.value) && (c.toughness.None? ==> p.toughness == "")
      && (c.loyalty.Some? ==> p.loyalty == c.loyalty.value) && (c.loyalty.None? ==> p.loyalty == "")
      && (c.handModifier.Some? ==> p.handModifier == c.handModifier.value) && (c.handModifier.None? ==> p.handModifier == "")
      && (c.lifeModifier.Some? ==> p.lifeModifier == c.lifeModifier.value) && (c.lifeModifier.None? ==> p.lifeModifier == "")
  {
  }

  /**
   * What a face is made of: a whole record (PartFace, FrontFace), a face
   * entry with its own mana cost (SplitFace, UnflippedFace), or the flipped
   * entry of a flip card together with its upright entry (FlippedFace).
   */
  datatype Body =
    | PartBody(part: PartText)
    | SplitBody(entry: EntryText)
    | UnflippedBody(entry: EntryText)
    | FlippedBody(up: EntryText, entry: EntryText)

  /** The mana-cost text a face parses; a flipped face uses its upright face's. */
  function ManaText(b: Body): string
  {
    match b
    case PartBody(p) => p.manaCost
    case SplitBody(e) => e.manaCost
    case UnflippedBody(e) => e.manaCost
    case FlippedBody(up, _) => up.manaCost
  }

  /** manaCost() */
  function ManaOf<M, T>(lib: Library<M, T>, b: Body): M
  {
    lib.parseMana(ManaText(b))
  }

  /** The type-line text a face parses: its own. */
  function TypeText(b: Body): string
  {
    match b
    case PartBody(p) => p.typeLine
    case SplitBody(e) => e.typeLine
    case UnflippedBody(e) => e.typeLine
    case FlippedBody(_, e) => e.typeLine
  }

  /** internalColor(): the record's colours for a whole record, the mana cost's colours otherwise. */
  function ColorOf<M, T>(lib: Library<M, T>, b: Body): set<LibMtg.Color>
  {
    if b.PartBody? then MapColor(b.part.colors) else lib.manaColors(ManaOf(lib, b))
  }

  /** internalColorIdentity(): the record's colour identity for a whole record, the colour otherwise. */
  function IdentityOf<M, T>(lib: Library<M, T>, b: Body): set<LibMtg.Color>
  {
    if b.PartBody? then MapColor(b.part.colorIdentity) else ColorOf(lib, b)
  }

  /**
   * Whether internalColor() and internalColorIdentity() return an EnumSet.
   * A whole record's sets come from Util.mapColor, a Color.Combination, and
   * EnumSet cannot be subclassed outside java.util, so they never are; a
   * face entry's are its parsed cost's color().
   */
  predicate InternalIsEnumSet<M, T>(lib: Library<M, T>, b: Body)
  {
    !b.PartBody? && lib.manaColorsIsEnumSet(ManaOf(lib, b))
  }

  /**
   * EnumSet.copyOf(collection): a copy of an EnumSet, or of a non-empty
   * collection; any other empty collection throws IllegalArgumentException,
   * since the copy cannot learn its element type from it.
   */
  function EnumSetCopyOf(s: set<LibMtg.Color>, isEnumSet: bool): (r: Result<set<LibMtg.Color>>)
    ensures r.Ok? <==> isEnumSet || s != {}
    ensures r.Ok? ==> r.value == s
    ensures r.Err? ==> r.error == IllegalArgument
  {
    if !isEnumSet && s == {} then Err(IllegalArgument) else Ok(s)
  }

  /** initColors' first copy, EnumSet.copyOf(internalColor()), throws. */
  predicate ColorCopyFails<M, T>(lib: Library<M, T>, b: Body)
  {
    EnumSetCopyOf(ColorOf(lib, b), InternalIsEnumSet(lib, b)).Err?
  }

  /** initColors' last copy, EnumSet.copyOf(internalColorIdentity()), throws. */
  predicate IdentityCopyFails<M, T>(lib: Library<M, T>, b: Body)
  {
    EnumSetCopyOf(IdentityOf(lib, b), InternalIsEnumSet(lib, b)).Err?
  }

  /**
   * As written, initColors throws on every whole-record face without
   * colours (a colourless artifact or land, whose colours are null or
   * empty), and on every one without a colour identity.
   */
  lemma ColourlessRecordFaceThrows<M, T>(lib: Library<M, T>, p: PartText)
    ensures ColorCopyFails(lib, PartBody(p)) <==> MapColor(p.colors) == {}
    ensures IdentityCopyFails(lib, PartBody(p)) <==> MapColor(p.colorIdentity) == {}
    ensures p.colors == None || p.colors == Some({}) ==> ColorCopyFails(lib, PartBody(p))
  {
    if p.colors == Some({}) {
      MapColorMeaning({}, LibMtg.White);
      assert MapColor(p.colors) == {};
    }
  }

  /** initColors' indicator: the colour without the mana cost's colours. */
  function IndicatorOf<M, T>(lib: Library<M, T>, b: Body): set<LibMtg.Color>
  {
    ColorOf(lib, b) - lib.manaColors(ManaOf(lib, b))
  }

  /** name(), rules(), power(), toughness(); loyalty and the modifiers are "" on a face entry. */
  function NameOf(b: Body): string
  {
    match b
    case PartBody(p) => p.name
    case SplitBody(e) => e.name
    case UnflippedBody(e) => e.name
    case FlippedBody(_, e) => e.name
  }

  function RulesOf(b: Body): string
  {
    match b
    case PartBody(p) => p.oracleText
    case SplitBody(e) => e.oracleText
    case UnflippedBody(e) => e.oracleText
    case FlippedBody(_, e) => e.oracleText
  }

  function LoyaltyOf(b: Body): string
  {
    if b.PartBody? then b.part.loyalty else ""
  }

  /** A flipped face reports its upright face's mana cost, colour, colour identity and indicator. */
  lemma FlippedSharesUpright<M, T>(lib: Library<M, T>, up: EntryText, flip: EntryText)
    ensures ManaOf(lib, FlippedBody(up, flip)) == ManaOf(lib, UnflippedBody(up))
    ensures ColorOf(lib, FlippedBody(up, flip)) == ColorOf(lib, UnflippedBody(up))
    ensures IdentityOf(lib, FlippedBody(up, flip)) == IdentityOf(lib, UnflippedBody(up))
    ensures IndicatorOf(lib, FlippedBody(up, flip)) == IndicatorOf(lib, UnflippedBody(up))
    ensures NameOf(FlippedBody(up, flip)) == flip.name && TypeText(FlippedBody(up, flip)) == flip.typeLine
  {
  }

  /**
   * A face entry's colour and colour identity are its mana cost's colours, so
   * it has no colour indicator; a whole record's indicator is its colours
   * minus its mana cost's.
   */
  lemma ColoursOfBody<M, T>(lib: Library<M, T>, b: Body)
    ensures !b.PartBody? ==> IdentityOf(lib, b) == ColorOf(lib, b) == lib.manaColors(ManaOf(lib, b)) && IndicatorOf(lib, b) == {}
    ensures b.PartBody? ==> IndicatorOf(lib, b) == MapColor(b.part.colors) - lib.manaColors(lib.parseMana(b.part.manaCost))
    ensures IndicatorOf(lib, b) <= ColorOf(lib, b) && IndicatorOf(lib, b) !! lib.manaColors(ManaOf(lib, b))
  {
  }

  // ---------------------------------------------------------------- the constructor's dispatch

  /** The first part whose uri ends in "b", reading each uri until one does; a null uri throws. */
  function MeldBackPart(parts: seq<ApiCard.Part>): (r: Result<ApiCard.Part>)
    ensures r.Ok? ==> r.value in parts && r.value.uriPath.Some? && EndsWith(r.value.uriPath.value, "b")
    ensures r == Err(NoSuchElement) <==> forall i :: 0 <= i < |parts| ==> parts[i].uriPath.Some? && !EndsWith(parts[i].uriPath.value, "b")
  {
    if parts == [] then Err(NoSuchElement)
    else if parts[0].uriPath.None? then Err(NullPointer)
    else if EndsWith(parts[0].uriPath.value, "b") then Ok(parts[0])
    else
      var r := MeldBackPart(parts[1..]);
      assert forall i :: 0 < i < |parts| ==> parts[1..][i - 1] == parts[i];
      r
  }

  /** The first part not named `name` (a part with a null name counts as not named so). */
  function OtherPart(parts: seq<ApiCard.Part>, name: string): (r: Result<ApiCard.Part>)
    ensures r.Ok? ==> r.value in parts && r.value.name != Some(name)
    ensures r.Err? <==> forall i :: 0 <= i < |parts| ==> parts[i].name == Some(name)
    ensures r.Err? ==> r.error == NoSuchElement
  {
    if parts == [] then Err(NoSuchElement)
    else if parts[0].name != Some(name) then Ok(parts[0])
    else
      var r := OtherPart(parts[1..], name);
      assert forall i :: 0 < i < |parts| ==> parts[1..][i - 1] == parts[i];
      r
  }

  /** The back-side record named by a part: bSides.get, which is null for a null or unknown name, and then PartFace throws. */
  function BackSide(bSides: map<string, ApiCard.Card>, part: ApiCard.Part): Result<ApiCard.Card>
  {
    if part.name.Some? && part.name.value in bSides then Ok(bSides[part.name.value]) else Err(NullPointer)
  }

  /** The names the Normal branch handles as ordinary one-face cards despite several parts. */
  predicate UnsupportedMultipart(name: Option<string>)
  {
    name == Some("Who") || name == Some("What") || name == Some("When") || name == Some("Where") || name == Some("Why")
    || name == Some("B.F.M. (Big Furry Monster)")
  }

  const FirePenguin: string := "Curse of the Fire Penguin // ???"

  /** Two face entries, or the exception cardFaces.get(0) and get(1) throw. */
  function TwoEntries(c: ApiCard.Card): (r: Result<(ApiCard.Face, ApiCard.Face)>)
    ensures r.Ok? <==> c.cardFaces.Some? && |c.cardFaces.value| >= 2
    ensures r.Ok? ==> r.value == (c.cardFaces.value[0], c.cardFaces.value[1])
    ensures r.Err? ==> r.error == (if c.cardFaces.None? then NullPointer else IndexOutOfBounds)
  {
    if c.cardFaces.None? then Err(NullPointer)
    else if |c.cardFaces.value| < 2 then Err(IndexOutOfBounds)
    else Ok((c.cardFaces.value[0], c.cardFaces.value[1]))
  }

  /** The Normal branch. */
  function NormalFaces(source: ApiCard.Card): Result<map<Kind, Body>>
  {
    var front := map[Front := PartBody(PartTextOf(source))];
    if source.cardFaces.Some? && source.cardFaces.value != [] then
      if source.name == Some(FirePenguin) then
        var fs := TwoEntries(source);
        if fs.Err? then Err(fs.error)
        else Ok(map[Front := SplitBody(EntryTextOf(fs.value.0)), Flipped := SplitBody(EntryTextOf(fs.value.1))])
      else Ok(map[])
    else if source.allParts.Some? && |source.allParts.value| > 1 then
      if UnsupportedMultipart(source.name) then Ok(front)
      else if |source.allParts.value| == 2 then
        if source.name.None? then Err(NullPointer)
        else
          var other := OtherPart(source.allParts.value, source.name.value);
          if other.Err? then Err(other.error)
          else if other.value.uriPath.None? then Err(NullPointer)
          else Ok(front)
      else Ok(front)
    else Ok(front)
  }

  /**
   * The faces the constructor creates, or the exception it throws.  A null
   * layout throws at the switch.  The front face of Meld and Transform is
   * built first, so its record's name is "" rather than null when the part
   * is looked up.
   */
  function FacesFor(layout: Option<LegacyLayout>, source: ApiCard.Card, bSides: map<string, ApiCard.Card>): Result<map<Kind, Body>>
  {
    if layout.None? then Err(NullPointer)
    else
      match layout.value
      case Normal => NormalFaces(source)
      case Plane => Ok(map[Front := PartBody(PartTextOf(source))])
      case Token => Ok(map[Front := PartBody(PartTextOf(source))])
      case Emblem => Ok(map[Front := PartBody(PartTextOf(source))])
      case Scheme => Ok(map[Front := PartBody(PartTextOf(source))])
      case Leveler => Ok(map[Front := PartBody(PartTextOf(source))])
      case Vanguard => Ok(map[Front := PartBody(PartTextOf(source))])
      case Phenomenon => Ok(map[Front := PartBody(PartTextOf(source))])
      case Meld => MeldFaces(source, bSides)
      case Transform => TransformFaces(source, bSides)
      case Flip => FlipFaces(source)
      case Split => SplitFaces(source)
      case OtherLayout => Ok(map[])
  }

  /** The Meld branch: the back side is named by the first part whose uri ends in "b". */
  function MeldFaces(source: ApiCard.Card, bSides: map<string, ApiCard.Card>): Result<map<Kind, Body>>
  {
    if source.allParts.None? then Err(NullPointer)
    else
      var p := MeldBackPart(source.allParts.value);
      if p.Err? then Err(p.error)
      else
        var back := BackSide(bSides, p.value);
        if back.Err? then Err(back.error)
        else Ok(map[Front := PartBody(PartTextOf(source)), Transformed := PartBody(PartTextOf(back.value))])
  }

  /** The Transform branch: the back side is named by the first part named otherwise than the (normalised) front. */
  function TransformFaces(source: ApiCard.Card, bSides: map<string, ApiCard.Card>): Result<map<Kind, Body>>
  {
    if source.allParts.None? then Err(NullPointer)
    else
      var p := OtherPart(source.allParts.value, PartTextOf(source).name);
      if p.Err? then Err(p.error)
      else
        var back := BackSide(bSides, p.value);
        if back.Err? then Err(back.error)
        else Ok(map[Front := PartBody(PartTextOf(source)), Transformed := PartBody(PartTextOf(back.value))])
  }

  /** The Flip branch. */
  function FlipFaces(source: ApiCard.Card): Result<map<Kind, Body>>
  {
    var fs := TwoEntries(source);
    if fs.Err? then Err(fs.error)
    else
      var up := EntryTextOf(fs.value.0);
      Ok(map[Front := UnflippedBody(up), Flipped := FlippedBody(up, EntryTextOf(fs.value.1))])
  }

  /** The Split branch. */
  function SplitFaces(source: ApiCard.Card): Result<map<Kind, Body>>
  {
    var fs := TwoEntries(source);
    if fs.Err? then Err(fs.error)
    else Ok(map[Left := SplitBody(EntryTextOf(fs.value.0)), Right := SplitBody(EntryTextOf(fs.value.1))])
  }

  /** Plane, Token, Emblem, Scheme, Leveler, Vanguard and Phenomenon get exactly a front face from the whole record. */
  lemma FrontOnlyLayouts(layout: LegacyLayout, source: ApiCard.Card, bSides: map<string, ApiCard.Card>)
    requires layout in {Plane, Token, Emblem, Scheme, Leveler, Vanguard, Phenomenon}
    ensures FacesFor(Some(layout), source, bSides) == Ok(map[Front := PartBody(PartTextOf(source))])
  {
  }

  /**
   * Flip gives an upright Front face from the first entry and a Flipped face
   * from the second that shares the upright's mana cost; Split gives Left
   * from the first entry and Right from the second; both throw without two entries.
   */
  lemma TwoEntryLayouts<M, T>(lib: Library<M, T>, source: ApiCard.Card, bSides: map<string, ApiCard.Card>)
    ensures var r := FacesFor(Some(Flip), source, bSides);
      && (r.Ok? <==> source.cardFaces.Some? && |source.cardFaces.value| >= 2)
      && (r.Ok? ==>
            && r.value.Keys == {Front, Flipped}
            && r.value[Front] == UnflippedBody(EntryTextOf(source.cardFaces.value[0]))
            && TypeText(r.value[Flipped]) == Or(source.cardFaces.value[1].typeLine, "")
            && NameOf(r.value[Flipped]) == Or(source.cardFaces.value[1].name, "")
            && ManaOf(lib, r.value[Flipped]) == ManaOf(lib, r.value[Front])
            && ColorOf(lib, r.value[Flipped]) == ColorOf(lib, r.value[Front]))
    ensures var r := FacesFor(Some(Split), source, bSides);
      && (r.Ok? <==> source.cardFaces.Some? && |source.cardFaces.value| >= 2)
      && (r.Ok? ==>
            && r.value.Keys == {Left, Right}
            && r.value[Left] == SplitBody(EntryTextOf(source.cardFaces.value[0]))
            && r.value[Right] == SplitBody(EntryTextOf(source.cardFaces.value[1])))
  {
  }

  /**
   * Meld and Transform give the whole record as the Front face and the
   * back-side record as the Transformed face: for meld the one named by the
   * first part whose uri ends in "b", for transform the first part named
   * otherwise than the card.
   */
  lemma BackSideLayouts(source: ApiCard.Card, bSides: map<string, ApiCard.Card>)
    ensures var r := FacesFor(Some(Meld), source, bSides);
      r.Ok? ==>
        && source.allParts.Some? && MeldBackPart(source.allParts.value).Ok?
        && var p := MeldBackPart(source.allParts.value).value;
        && p.name.Some? && p.name.value in bSides
        && r.value == map[Front := PartBody(PartTextOf(source)), Transformed := PartBody(PartTextOf(bSides[p.name.value]))]
    ensures var r := FacesFor(Some(Transform), source, bSides);
      r.Ok? ==>
        && source.allParts.Some? && OtherPart(source.allParts.value, Or(source.name, "")).Ok?
        && var p := OtherPart(source.allParts.value, Or(source.name, "")).value;
        && p.name.Some? && p.name.value in bSides && p.name != Some(Or(source.name, ""))
        && r.value == map[Front := PartBody(PartTextOf(source)), Transformed := PartBody(PartTextOf(bSides[p.name.value]))]
    ensures source.allParts.None? ==> FacesFor(Some(Meld), source, bSides) == Err(NullPointer) && FacesFor(Some(Transform), source, bSides) == Err(NullPointer)
  {
  }

  /**
   * A Normal record gets a front face from the whole record unless it has
   * face entries: then only the fire-penguin card gets faces (Front and
   * Flipped, from its entries), and any other gets none.
   */
  lemma NormalLayout(source: ApiCard.Card, bSides: map<string, ApiCard.Card>)
    ensures var r := FacesFor(Some(Normal), source, bSides);
      && (source.cardFaces.Some? && source.cardFaces.value != [] && source.name != Some(FirePenguin) ==> r == Ok(map[]))
      && (source.cardFaces.Some? && source.cardFaces.value != [] && source.name == Some(FirePenguin) && r.Ok? ==>
            r.value == map[Front := SplitBody(EntryTextOf(source.cardFaces.value[0])), Flipped := SplitBody(EntryTextOf(source.cardFaces.value[1]))])
      && ((source.cardFaces.None? || source.cardFaces.value == []) && r.Ok? ==> r.value == map[Front := PartBody(PartTextOf(source))])
      && ((source.cardFaces.None? || source.cardFaces.value == []) && (source.allParts.None? || |source.allParts.value| != 2 || UnsupportedMultipart(source.name)) ==>
            r == Ok(map[Front := PartBody(PartTextOf(source))]))
  {
  }

  /**
   * What the faces need of each other: an upright face is the Front face,
   * and a flipped face is the Flipped face beside an upright Front face of
   * the same entry.
   */
  predicate WellShaped(bodies: map<Kind, Body>)
  {
    forall k :: k in bodies ==>
      && (bodies[k].UnflippedBody? ==> k == Front)
      && (bodies[k].FlippedBody? ==> k == Flipped && Front in bodies && bodies[Front] == UnflippedBody(bodies[k].up))
  }

  /** Every face set the constructor builds is well shaped. */
  lemma FacesForWellShaped(layout: Option<LegacyLayout>, source: ApiCard.Card, bSides: map<string, ApiCard.Card>)
    ensures FacesFor(layout, source, bSides).Ok? ==> WellShaped(FacesFor(layout, source, bSides).value)
  {
    if layout.Some? {
      match layout.value
      case Normal =>
        assert NormalFaces(source).Ok? ==> WellShaped(NormalFaces(source).value);
      case Meld =>
        assert MeldFaces(source, bSides).Ok? ==> WellShaped(MeldFaces(source, bSides).value);
      case Transform =>
        assert TransformFaces(source, bSides).Ok? ==> WellShaped(TransformFaces(source, bSides).value);
      case Flip =>
        assert FlipFaces(source).Ok? ==> WellShaped(FlipFaces(source).value);
      case Split =>
        assert SplitFaces(source).Ok? ==> WellShaped(SplitFaces(source).value);
      case _ =>
    }
  }

  // ---------------------------------------------------------------- the face objects

  /**
   * A face of the older card class, with the values it computes on first use
   * cached: mana cost, type line, and the three colour sets (initColors sets
   * them together).  A flipped face holds its upright face and asks it for
   * the mana cost and colours, so those are cached on the upright face.
   */
  class LegacyFace<M, T> {
    const kind: Kind
    const body: Body
    const lib: Library<M, T>
    const upFace: LegacyFace?<M, T>
    var manaCache: Option<M>
    var typeCache: Option<T>
    var color: Option<set<LibMtg.Color>>
    var colorIndicator: Option<set<LibMtg.Color>>
    var colorIdentity: Option<set<LibMtg.Color>>

    /** Exactly a flipped face has an upright face: an unflipped face of its upright entry, another object with the same library. */
    ghost predicate Shaped()
    {
      && (body.FlippedBody? <==> upFace != null)
      && (upFace != null ==> upFace != this && upFace.body == UnflippedBody(body.up) && upFace.lib == lib && upFace.upFace == null)
    }

    /** Nothing is cached yet. */
    predicate Empty()
      reads this
    {
      manaCache.None? && typeCache.None? && color.None? && colorIndicator.None? && colorIdentity.None?
    }

    /** Every cached value is the one its computation gives. */
    ghost predicate CacheValid()
      reads this
    {
      && (manaCache.Some? ==> manaCache.value == ManaOf(lib, body))
      && (typeCache.Some? ==> typeCache.value == lib.parseType(TypeText(body)))
      && (color.Some? ==> color.value == ColorOf(lib, body))
      && (colorIndicator.Some? ==> colorIndicator.value == IndicatorOf(lib, body))
      && (colorIdentity.Some? ==> colorIdentity.value == IdentityOf(lib, body))
    }

    ghost predicate Valid()
      reads this, upFace
    {
      Shaped() && CacheValid() && (upFace != null ==> upFace.CacheValid())
    }

    constructor(kind: Kind, body: Body, lib: Library<M, T>, upFace: LegacyFace?<M, T>)
      requires body.FlippedBody? <==> upFace != null
      requires upFace != null ==> upFace.body == UnflippedBody(body.up) && upFace.lib == lib && upFace.upFace == null && upFace.Valid()
      ensures this.kind == kind && this.body == body && this.lib == lib && this.upFace == upFace
      ensures Empty() && Valid()
    {
      this.kind := kind;
      this.body := body;
      this.lib := lib;
      this.upFace := upFace;
      manaCache, typeCache := None, None;
      color, colorIndicator, colorIdentity := None, None, None;
    }

    /** name() */
    function Name(): string
    {
      NameOf(body)
    }

    /** manaCost(): parsed once; a flipped face returns its upright face's. */
    method ManaCost() returns (m: M)
      requires Valid()
      modifies this, upFace
      ensures Valid() && m == ManaOf(lib, body)
      ensures upFace == null ==> manaCache == Some(m)
      ensures color == old(color) && colorIndicator == old(colorIndicator) && colorIdentity == old(colorIdentity)
      decreases if upFace == null then 0 else 1
    {
      if upFace != null {
        m := upFace.ManaCost();
      } else {
        if manaCache.None? {
          manaCache := Some(lib.parseMana(ManaText(body)));
        }
        m := manaCache.value;
      }
    }

    /** type(): parsed once from the face's own type line. */
    method Type() returns (t: T)
      requires Valid()
      modifies this
      ensures Valid() && t == lib.parseType(TypeText(body))
      ensures typeCache == Some(t) && manaCache == old(manaCache) && color == old(color)
      ensures colorIndicator == old(colorIndicator) && colorIdentity == old(colorIdentity)
    {
      if typeCache.None? {
        typeCache := Some(lib.parseType(TypeText(body)));
      }
      t := typeCache.value;
    }

    /** internalColor(), with whether the set it returns is an EnumSet. */
    method InternalColor() returns (c: set<LibMtg.Color>, isEnumSet: bool)
      requires Valid()
      modifies this, upFace
      ensures Valid() && c == ColorOf(lib, body) && isEnumSet == InternalIsEnumSet(lib, body)
      ensures color == old(color) && colorIndicator == old(colorIndicator) && colorIdentity == old(colorIdentity)
      decreases if upFace == null then 0 else 1
    {
      if upFace != null {
        c, isEnumSet := upFace.InternalColor();
      } else if body.PartBody? {
        c, isEnumSet := MapColor(body.part.colors), false;
      } else {
        var m := ManaCost();
        c, isEnumSet := lib.manaColors(m), lib.manaColorsIsEnumSet(m);
      }
    }

    /** internalColorIdentity(), with whether the set it returns is an EnumSet. */
    method InternalColorIdentity() returns (c: set<LibMtg.Color>, isEnumSet: bool)
      requires Valid()
      modifies this, upFace
      ensures Valid() && c == IdentityOf(lib, body) && isEnumSet == InternalIsEnumSet(lib, body)
      ensures color == old(color) && colorIndicator == old(colorIndicator) && colorIdentity == old(colorIdentity)
      decreases if upFace == null then 0 else 1
    {
      if upFace != null {
        c, isEnumSet := upFace.InternalColorIdentity();
      } else if body.PartBody? {
        c, isEnumSet := MapColor(body.part.colorIdentity), false;
      } else {
        c, isEnumSet := InternalColor();
      }
    }

    /** All three colour sets are cached, so initColors returns at once. */
    predicate Cached()
      reads this
    {
      color.Some? && colorIndicator.Some? && colorIdentity.Some?
    }

    /**
     * initColors(): once all three colour sets are cached nothing is
     * recomputed.  Otherwise the colour is copied first, then the
     * indicator, then the identity; a copy that throws leaves its own set
     * and those after it as they were.
     */
    method InitColors() returns (r: Result<()>)
      requires Valid()
      modifies this, upFace
      ensures Valid()
      ensures r.Err? ==> r.error == IllegalArgument
      ensures r.Err? <==> !old(Cached()) && (ColorCopyFails(lib, body) || IdentityCopyFails(lib, body))
      ensures r.Ok? ==>
        color == Some(ColorOf(lib, body)) && colorIndicator == Some(IndicatorOf(lib, body)) && colorIdentity == Some(IdentityOf(lib, body))
      ensures old(Cached()) ==> color == old(color) && colorIndicator == old(colorIndicator) && colorIdentity == old(colorIdentity)
      ensures !old(Cached()) && ColorCopyFails(lib, body) ==>
        color == old(color) && colorIndicator == old(colorIndicator) && colorIdentity == old(colorIdentity)
      ensures !old(Cached()) && !ColorCopyFails(lib, body) ==>
        color == Some(ColorOf(lib, body)) && colorIndicator == Some(IndicatorOf(lib, body))
      ensures !old(Cached()) && !ColorCopyFails(lib, body) && IdentityCopyFails(lib, body) ==> colorIdentity == old(colorIdentity)
    {
      if Cached() {
        return Ok(());
      }
      var c, cEnum := InternalColor();
      var copied := EnumSetCopyOf(c, cEnum);
      if copied.Err? {
        return Err(copied.error);
      }
      color := Some(copied.value);
      var m := ManaCost();
      colorIndicator := Some(copied.value - lib.manaColors(m));
      var identity, iEnum := InternalColorIdentity();
      var identityCopy := EnumSetCopyOf(identity, iEnum);
      if identityCopy.Err? {
        return Err(identityCopy.error);
      }
      colorIdentity := Some(identityCopy.value);
      r := Ok(());
    }

    /**
     * initColors as evidently intended: each set copied into a fresh
     * EnumSet (EnumSet.noneOf, then addAll), which never throws, so after
     * the call all three colour sets are cached.
     */
    method InitColorsIntended()
      requires Valid()
      modifies this, upFace
      ensures Valid()
      ensures color == Some(ColorOf(lib, body)) && colorIndicator == Some(IndicatorOf(lib, body))
      ensures colorIdentity == Some(IdentityOf(lib, body))
      ensures old(Cached()) ==> color == old(color) && colorIndicator == old(colorIndicator) && colorIdentity == old(colorIdentity)
    {
      if Cached() {
        return;
      }
      var c, cEnum := InternalColor();
      var m := ManaCost();
      var indicator := c - lib.manaColors(m);
      var identity, iEnum := InternalColorIdentity();
      color, colorIndicator, colorIdentity := Some(c), Some(indicator), Some(identity);
    }

    /** colorIndicator(): initColors, then the cached indicator. */
    method ColorIndicator() returns (r: Result<set<LibMtg.Color>>)
      requires Valid()
      modifies this, upFace
      ensures Valid()
      ensures r.Err? <==> !old(Cached()) && (ColorCopyFails(lib, body) || IdentityCopyFails(lib, body))
      ensures r.Err? ==> r.error == IllegalArgument
      ensures r.Ok? ==> r.value == IndicatorOf(lib, body) && colorIndicator == Some(r.value)
    {
      var init := InitColors();
      if init.Err? {
        return Err(init.error);
      }
      r := Ok(colorIndicator.value);
    }

    /** color(): initColors, then the cached colour. */
    method Color() returns (r: Result<set<LibMtg.Color>>)
      requires Valid()
      modifies this, upFace
      ensures Valid()
      ensures r.Err? <==> !old(Cached()) && (ColorCopyFails(lib, body) || IdentityCopyFails(lib, body))
      ensures r.Err? ==> r.error == IllegalArgument
      ensures r.Ok? ==> r.value == ColorOf(lib, body) && color == Some(r.value)
    {
      var init := InitColors();
      if init.Err? {
        return Err(init.error);
      }
      r := Ok(color.value);
    }

    /** colorIdentity(): initColors, then the cached colour identity. */
    method ColorIdentity() returns (r: Result<set<LibMtg.Color>>)
      requires Valid()
      modifies this, upFace
      ensures Valid()
      ensures r.Err? <==> !old(Cached()) && (ColorCopyFails(lib, body) || IdentityCopyFails(lib, body))
      ensures r.Err? ==> r.error == IllegalArgument
      ensures r.Ok? ==> r.value == IdentityOf(lib, body) && colorIdentity == Some(r.value)
    {
      var init := InitColors();
      if init.Err? {
        return Err(init.error);
      }
      r := Ok(colorIdentity.value);
    }
  }

  // ---------------------------------------------------------------- the card

  /** ScryfallCard: its faces by kind. */
  class LegacyCard<M, T> {
    const lib: Library<M, T>
    var faces: map<Kind, LegacyFace<M, T>>

    /** The faces' bodies, by kind. */
    function Bodies(): map<Kind, Body>
      reads this
    {
      map k | k in faces :: faces[k].body
    }

    /** Each face sits under its own kind and is valid; a flipped face's upright face is the Front face. */
    ghost predicate Valid()
      reads this, set k | k in faces :: faces[k]
    {
      forall k :: k in faces ==>
        && faces[k].kind == k && faces[k].lib == lib && faces[k].Shaped() && faces[k].CacheValid()
        && (faces[k].upFace != null ==> Front in faces && faces[k].upFace == faces[Front])
    }

    /** A face from each body, the upright face created first so the flipped face can hold it. */
    constructor(lib: Library<M, T>, bodies: map<Kind, Body>)
      requires WellShaped(bodies)
      ensures this.lib == lib && Bodies() == bodies && Valid()
      ensures forall k :: k in faces ==> faces[k].Empty()
    {
      this.lib := lib;
      var fs := BuildFaces(lib, bodies);
      EveryKind(bodies.Keys);
      faces := fs;
    }

    /** face(kind): the face under that kind, or null. */
    function FaceOf(kind: Kind): (r: Option<LegacyFace<M, T>>)
      reads this
      ensures r.Some? <==> kind in faces
      ensures r.Some? ==> r.value == faces[kind] && r.value.body == Bodies()[kind]
    {
      if kind in faces then Some(faces[kind]) else None
    }

    /** faces() */
    function Faces(): (r: set<LegacyFace<M, T>>)
      reads this
      ensures forall k :: k in faces ==> faces[k] in r
      ensures forall f :: f in r ==> exists k :: k in faces && faces[k] == f
    {
      set k | k in faces :: faces[k]
    }
  }

  /** The constructor's six puts cover every kind. */
  lemma EveryKind(ks: set<Kind>)
    ensures ks * {Front, Transformed, Flipped, Left, Right, Other} == ks
  {
    forall k | k in ks
      ensures k in {Front, Transformed, Flipped, Left, Right, Other}
    {
      match k
      case Front =>
      case Transformed =>
      case Flipped =>
      case Left =>
      case Right =>
      case Other =>
    }
  }

  /** The faces built so far: one fresh face, with nothing cached, for each kind of `done` that has a body. */
  ghost predicate Built<M, T>(fs: map<Kind, LegacyFace<M, T>>, bodies: map<Kind, Body>, lib: Library<M, T>, done: set<Kind>)
    reads set k | k in fs :: fs[k]
  {
    && fs.Keys == bodies.Keys * done
    && forall k :: k in fs ==>
      && fs[k].kind == k && fs[k].body == bodies[k] && fs[k].lib == lib && fs[k].Shaped() && fs[k].Empty()
      && (fs[k].upFace != null ==> Front in fs && fs[k].upFace == fs[Front])
  }

  /** The constructor's puts, Front first. */
  method BuildFaces<M, T>(lib: Library<M, T>, bodies: map<Kind, Body>) returns (fs: map<Kind, LegacyFace<M, T>>)
    requires WellShaped(bodies)
    ensures Built(fs, bodies, lib, {Front, Transformed, Flipped, Left, Right, Other})
  {
    fs := map[];
    ghost var done: set<Kind> := {};
    fs := PutFace(lib, bodies, fs, Front, done);
    done := done + {Front};
    fs := PutFace(lib, bodies, fs, Transformed, done);
    done := done + {Transformed};
    fs := PutFace(lib, bodies, fs, Flipped, done);
    done := done + {Flipped};
    fs := PutFace(lib, bodies, fs, Left, done);
    done := done + {Left};
    fs := PutFace(lib, bodies, fs, Right, done);
    done := done + {Right};
    fs := PutFace(lib, bodies, fs, Other, done);
    done := done + {Other};
    assert done == {Front, Transformed, Flipped, Left, Right, Other};
  }

  /** One faces.put of the constructor: the face for kind k, if it has a body, holding the Front face when it is flipped. */
  method PutFace<M, T>(lib: Library<M, T>, bodies: map<Kind, Body>, fs: map<Kind, LegacyFace<M, T>>, k: Kind, ghost done: set<Kind>)
    returns (r: map<Kind, LegacyFace<M, T>>)
    requires WellShaped(bodies)
    requires k !in done && (k == Flipped ==> Front in done) && Built(fs, bodies, lib, done)
    ensures Built(r, bodies, lib, done + {k})
  {
    r := fs;
    if k in bodies {
      var up := if bodies[k].FlippedBody? then fs[Front] else null;
      var f := new LegacyFace(k, bodies[k], lib, up);
      r := fs[k := f];
    }
  }

  /** new ScryfallCard(bSides, source), with the record's layout beside it: the card, or the exception its constructor throws. */
  method NewCard<M, T>(lib: Library<M, T>, bSides: map<string, ApiCard.Card>, layout: Option<LegacyLayout>, source: ApiCard.Card)
    returns (r: Result<LegacyCard<M, T>>)
    ensures r.Ok? <==> FacesFor(layout, source, bSides).Ok?
    ensures r.Err? ==> r.error == FacesFor(layout, source, bSides).error
    ensures r.Ok? ==> fresh(r.value) && r.value.Bodies() == FacesFor(layout, source, bSides).value && r.value.Valid()
  {
    var bodies := FacesFor(layout, source, bSides);
    if bodies.Err? {
      return Err(bodies.error);
    }
    FacesForWellShaped(layout, source, bSides);
    var c := new LegacyCard(lib, bodies.value);
    r := Ok(c);
  }
}
