/**
 * ScryfallFace.java: one face of a card, read from the card record and, for
 * a multi-face card, from that face's entry in the record.  Text getters
 * fall back from the face to the card; the mana cost, the type line and the
 * three colour sets are computed on first use and kept.
 */
module ScryfallFaces {
  import opened Base
  import opened Util
  import LibMtg
  import ApiCard

  /**
   * The card library's parsers and colour rules a face relies on.  They are
   * not part of this model; each is a deterministic function of its input.
   *   parseMana    - Mana.Value.parse
   *   parseType    - TypeLine.Basic.parse of a possibly-null type line
   *   symbolColors - the colours of the mana symbols in a (possibly null) rules text
   *   landColors   - TypeLine.landColorIdentity
   */
  datatype Library<M, !T> = Library(
    parseMana: string -> Result<M>,
    parseType: Option<string> -> Result<T>,
    symbolColors: Option<string> -> set<LibMtg.Color>,
    landColors: T -> set<LibMtg.Color>)

  class ScryfallFace<M, T> {
    const cardJson: ApiCard.Card
    /** None for a face that is the whole record (a one-face card or a meld back). */
    const faceJson: Option<ApiCard.Face>
    const lib: Library<M, T>

    var manaCost: Option<M>
    var typeLine: Option<T>
    var color: Option<set<LibMtg.Color>>
    var colorIndicator: Option<set<LibMtg.Color>>
    var colorIdentity: Option<set<LibMtg.Color>>

    /** Every cached value is the one its computation gives; the colours are cached indicator and colour together, the identity after them. */
    ghost predicate Valid()
      reads this
    {
      && (manaCost.Some? ==> lib.parseMana(ManaSource()) == Ok(manaCost.value))
      && (typeLine.Some? ==> lib.parseType(TypeText()) == Ok(typeLine.value))
      && (color.Some? <==> colorIndicator.Some?)
      && (color.Some? ==> color.value == ColorOf() && colorIndicator.value == IndicatorOf())
      && (colorIdentity.Some? ==>
            color.Some? && lib.parseType(TypeText()).Ok? && colorIdentity.value == IdentityOf(lib.parseType(TypeText()).value))
    }

    constructor(cardJson: ApiCard.Card, faceJson: Option<ApiCard.Face>, lib: Library<M, T>)
      ensures this.cardJson == cardJson && this.faceJson == faceJson && this.lib == lib
      ensures manaCost.None? && typeLine.None? && color.None? && colorIndicator.None? && colorIdentity.None?
      ensures Valid()
    {
      this.cardJson := cardJson;
      this.faceJson := faceJson;
      this.lib := lib;
      manaCost := None;
      typeLine := None;
      color := None;
      colorIndicator := None;
      colorIdentity := None;
    }

    /** name(): the face's name when there is a face, else the card's; null reads as "". */
    function Name(): string
    {
      Or(if faceJson.Some? then faceJson.value.name else cardJson.name, "")
    }

    /** rules() */
    function Rules(): string
    {
      Or(if faceJson.Some? then faceJson.value.oracleText else cardJson.oracleText, "")
    }

    /** printedPower() */
    function Power(): string
    {
      Or(if faceJson.Some? then faceJson.value.power else cardJson.power, "")
    }

    /** printedToughness() */
    function Toughness(): string
    {
      Or(if faceJson.Some? then faceJson.value.toughness else cardJson.toughness, "")
    }

    /** printedLoyalty(), printedDefense(), handModifier(), lifeModifier(): always the card's. */
    function Loyalty(): string { Or(cardJson.loyalty, "") }
    function Defense(): string { Or(cardJson.defense, "") }
    function HandModifier(): string { Or(cardJson.handModifier, "") }
    function LifeModifier(): string { Or(cardJson.lifeModifier, "") }

    /** The text manaCost() parses. */
    function ManaSource(): string
    {
      Or(if faceJson.Some? then faceJson.value.manaCost else cardJson.manaCost, "")
    }

    /** The type line type() parses: the face's only when it has one. */
    function TypeText(): Option<string>
    {
      if faceJson.Some? && faceJson.value.typeLine.Some? then faceJson.value.typeLine else cardJson.typeLine
    }

    /** The colour indicator initColor() computes. */
    function IndicatorOf(): set<LibMtg.Color>
    {
      MapColor(Some(OrEmpty(
        if faceJson.Some? && faceJson.value.colorIndicator.Some? then faceJson.value.colorIndicator else cardJson.colorIndicator)))
    }

    /** The colour initColor() computes: the listed colours plus the indicator. */
    function ColorOf(): (r: set<LibMtg.Color>)
      ensures IndicatorOf() <= r
    {
      MapColor(Some(OrEmpty(if faceJson.Some? && faceJson.value.colors.Some? then faceJson.value.colors else cardJson.colors)))
        + IndicatorOf()
    }

    /** The colour identity for parsed type line t: the rules text's mana symbols, the colour, and the land colours of t. */
    function IdentityOf(t: T): (r: set<LibMtg.Color>)
      ensures ColorOf() <= r && lib.landColors(t) <= r
    {
      lib.symbolColors(if faceJson.Some? then faceJson.value.oracleText else cardJson.oracleText) + ColorOf() + lib.landColors(t)
    }

    /** Whether initColor() returns at once. */
    predicate ColorsCached()
      reads this
    {
      color.Some? && colorIndicator.Some? && colorIdentity.Some?
    }

    /** manaCost(): parsed once, then served from the cache; a failed parse caches nothing. */
    method ManaCost() returns (r: Result<M>)
      requires Valid()
      modifies this
      ensures Valid()
      ensures r == lib.parseMana(ManaSource())
      ensures manaCost == if r.Ok? then Some(r.value) else old(manaCost)
      ensures typeLine == old(typeLine) && color == old(color) && colorIndicator == old(colorIndicator)
      ensures colorIdentity == old(colorIdentity)
    {
      if manaCost.None? {
        var parsed := lib.parseMana(ManaSource());
        if parsed.Err? {
          // an IllegalArgumentException is rethrown as one naming the card and set; others pass through
          return parsed;
        }
        manaCost := Some(parsed.value);
      }
      return Ok(manaCost.value);
    }

    /** type(): parsed once, then served from the cache. */
    method Type() returns (r: Result<T>)
      requires Valid()
      modifies this
      ensures Valid()
      ensures r == lib.parseType(TypeText())
      ensures typeLine == if r.Ok? then Some(r.value) else old(typeLine)
      ensures manaCost == old(manaCost) && color == old(color) && colorIndicator == old(colorIndicator)
      ensures colorIdentity == old(colorIdentity)
    {
      if typeLine.None? {
        var parsed := lib.parseType(TypeText());
        if parsed.Err? {
          return parsed;
        }
        typeLine := Some(parsed.value);
      }
      return Ok(typeLine.value);
    }

    /**
     * initColor(): nothing to do when all three colours are cached;
     * otherwise indicator and colour are computed, and then the identity,
     * which needs type() and fails with it.
     */
    method InitColor() returns (r: Result<()>)
      requires Valid()
      modifies this
      ensures Valid()
      ensures r.Err? <==> !old(ColorsCached()) && lib.parseType(TypeText()).Err?
      ensures r.Ok? ==> ColorsCached()
      ensures color == Some(ColorOf()) && colorIndicator == Some(IndicatorOf())
      ensures r.Err? ==> colorIdentity == old(colorIdentity) == None
      ensures old(ColorsCached()) ==> color == old(color) && colorIndicator == old(colorIndicator) && colorIdentity == old(colorIdentity)
      ensures manaCost == old(manaCost)
      ensures typeLine == if lib.parseType(TypeText()).Ok? && !old(ColorsCached()) then Some(lib.parseType(TypeText()).value) else old(typeLine)
    {
      if ColorsCached() {
        return Ok(());
      }
      colorIndicator := Some(IndicatorOf());
      color := Some(ColorOf());
      var t := Type();
      if t.Err? {
        return Err(t.error);
      }
      colorIdentity := Some(IdentityOf(t.value));
      return Ok(());
    }

    /** colorIndicator() */
    method ColorIndicator() returns (r: Result<set<LibMtg.Color>>)
      requires Valid()
      modifies this
      ensures Valid()
      ensures r.Err? <==> !old(ColorsCached()) && lib.parseType(TypeText()).Err?
      ensures r.Ok? ==> r.value == IndicatorOf() && ColorsCached()
    {
      var done := InitColor();
      if done.Err? {
        return Err(done.error);
      }
      return Ok(colorIndicator.value);
    }

    /** color() */
    method Color() returns (r: Result<set<LibMtg.Color>>)
      requires Valid()
      modifies this
      ensures Valid()
      ensures r.Err? <==> !old(ColorsCached()) && lib.parseType(TypeText()).Err?
      ensures r.Ok? ==> r.value == ColorOf() && IndicatorOf() <= r.value && ColorsCached()
    {
      var done := InitColor();
      if done.Err? {
        return Err(done.error);
      }
      return Ok(color.value);
    }

    /** colorIdentity(): once computed it holds the colour, which holds the indicator. */
    method ColorIdentity() returns (r: Result<set<LibMtg.Color>>)
      requires Valid()
      modifies this
      ensures Valid()
      ensures r.Err? <==> !old(ColorsCached()) && lib.parseType(TypeText()).Err?
      ensures r.Ok? ==> lib.parseType(TypeText()).Ok? && r.value == IdentityOf(lib.parseType(TypeText()).value)
      ensures r.Ok? ==> IndicatorOf() <= ColorOf() <= r.value
    {
      var done := InitColor();
      if done.Err? {
        return Err(done.error);
      }
      return Ok(colorIdentity.value);
    }

    /** The face's name hashed as Objects.hash sees it: 0 for no face or a null name. */
    function FaceNameHash(strHash: string -> int): int
    {
      if faceJson.Some? && faceJson.value.name.Some? then strHash(faceJson.value.name.value) else 0
    }

    /**
     * equals(): the card's oracle ids must be equal (a null id on this side
     * throws), and then either both faces are absent or both are present
     * with equal names (a null name on this side throws).  Null or a
     * non-face is not equal.
     */
    function Equals(other: ScryfallFace?<M, T>): (r: Result<bool>)
    {
      if other == null then Ok(false)
      else if cardJson.oracleId.None? then Err(NullPointer)
      else if Some(cardJson.oracleId.value) != other.cardJson.oracleId then Ok(false)
      else if faceJson.None? then Ok(other.faceJson.None?)
      else if other.faceJson.None? then Ok(false)
      else if faceJson.value.name.None? then Err(NullPointer)
      else Ok(faceJson.value.name == other.faceJson.value.name)
    }

    /** hashCode(): Objects.hash(oracleId, face name) in int arithmetic, a null element hashing to 0. */
    function HashCode(uuidHash: ApiCard.Uuid -> int, strHash: string -> int): int
    {
      Wrap32(31 * Wrap32(31 + (if cardJson.oracleId.Some? then uuidHash(cardJson.oracleId.value) else 0)) + FaceNameHash(strHash))
    }
  }

  /**
   * Name, rules text, power and toughness are the face's whenever there is
   * a face, even a null one, and the card's otherwise; the type line is the
   * face's only when the face has one; loyalty, defense and the modifiers
   * are always the card's.  Null reads as "".
   */
  lemma {:induction false} GetterFallbacks<M, T>(f: ScryfallFace<M, T>)
    ensures f.faceJson.Some? ==>
      && f.Name() == Or(f.faceJson.value.name, "") && f.Rules() == Or(f.faceJson.value.oracleText, "")
      && f.Power() == Or(f.faceJson.value.power, "") && f.Toughness() == Or(f.faceJson.value.toughness, "")
    ensures f.faceJson.None? ==>
      && f.Name() == Or(f.cardJson.name, "") && f.Rules() == Or(f.cardJson.oracleText, "")
      && f.Power() == Or(f.cardJson.power, "") && f.Toughness() == Or(f.cardJson.toughness, "")
    ensures f.TypeText() == if f.faceJson.Some? && f.faceJson.value.typeLine.Some? then f.faceJson.value.typeLine else f.cardJson.typeLine
    ensures f.Loyalty() == Or(f.cardJson.loyalty, "") && f.Defense() == Or(f.cardJson.defense, "")
    ensures f.HandModifier() == Or(f.cardJson.handModifier, "") && f.LifeModifier() == Or(f.cardJson.lifeModifier, "")
    ensures f.faceJson.Some? && f.faceJson.value.name.None? ==> f.Name() == ""
  {
  }

  /**
   * equals holds exactly when the oracle ids are equal and non-null, and
   * either neither face is present or both are, with equal non-null names;
   * it throws exactly when this side's oracle id is null, or when the ids
   * agree, both faces are present and this side's name is null.
   */
  lemma EqualsMeaning<M, T>(a: ScryfallFace<M, T>, b: ScryfallFace<M, T>)
    ensures a.Equals(b) == Ok(true) <==>
      && a.cardJson.oracleId.Some? && a.cardJson.oracleId == b.cardJson.oracleId
      && (a.faceJson.None? <==> b.faceJson.None?)
      && (a.faceJson.Some? ==> a.faceJson.value.name.Some? && a.faceJson.value.name == b.faceJson.value.name)
    ensures a.Equals(b).Err? <==>
      a.cardJson.oracleId.None? ||
      (a.cardJson.oracleId == b.cardJson.oracleId && a.faceJson.Some? && b.faceJson.Some? && a.faceJson.value.name.None?)
    ensures a.Equals(null) == Ok(false)
  {
  }

  /** Equal faces are equal both ways round and have equal hash codes. */
  lemma EqualFacesHashAlike<M, T>(a: ScryfallFace<M, T>, b: ScryfallFace<M, T>, uuidHash: ApiCard.Uuid -> int, strHash: string -> int)
    requires a.Equals(b) == Ok(true)
    ensures b.Equals(a) == Ok(true)
    ensures a.HashCode(uuidHash, strHash) == b.HashCode(uuidHash, strHash)
  {
    EqualsMeaning(a, b);
    EqualsMeaning(b, a);
  }

  /** A face with an oracle id, and a name whenever it has a face, equals itself. */
  lemma EqualsReflexive<M, T>(a: ScryfallFace<M, T>)
    ensures a.Equals(a) == Ok(true) <==> a.cardJson.oracleId.Some? && (a.faceJson.Some? ==> a.faceJson.value.name.Some?)
  {
    EqualsMeaning(a, a);
  }

  /** The three colour sets nest: indicator within colour within identity. */
  lemma {:induction false} ColorsNest<M, T>(f: ScryfallFace<M, T>, t: T)
    ensures f.IndicatorOf() <= f.ColorOf() <= f.IdentityOf(t)
  {
    assert f.IndicatorOf() <= f.ColorOf();
    assert f.ColorOf() <= f.IdentityOf(t);
  }
}
