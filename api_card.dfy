/**
 * The records the Scryfall API delivers (api/Card.java, api/Set.java): plain
 * data holders whose fields may be null.  A record is a value here; two
 * records are told apart by their id.
 */
module ApiCard {
  import opened Base
  import ColorEnum
  import CardLayoutEnum
  import LegalityEnum
  import RarityEnum
  import SetTypeEnum
  import CardFrameEnum

  /** A Java long. */
  newtype Int64 = x: int | -0x8000_0000_0000_0000 <= x < 0x8000_0000_0000_0000

  /** java.util.UUID: its most and least significant 64 bits. */
  datatype Uuid = Uuid(msb: Int64, lsb: Int64)

  /** Card.Face: one face of a multi-face record. */
  datatype Face = Face(
    name: Option<string>,
    manaCost: Option<string>,
    typeLine: Option<string>,
    oracleText: Option<string>,
    power: Option<string>,
    toughness: Option<string>,
    loyalty: Option<string>,
    defense: Option<string>,
    colors: Option<set<ColorEnum.Color>>,
    colorIndicator: Option<set<ColorEnum.Color>>,
    flavorText: Option<string>,
    oracleId: Option<Uuid>)

  /** Card.Part: a related record; `uriPath` is the path of its `uri`. */
  datatype Part = Part(id: Option<Uuid>, name: Option<string>, component: Option<string>, uriPath: Option<string>)

  /** Card: one printing record.  Fields no modelled code reads are omitted. */
  datatype Card = Card(
    id: Uuid,
    oracleId: Option<Uuid>,
    name: Option<string>,
    layout: Option<CardLayoutEnum.CardLayout>,
    typeLine: Option<string>,
    oracleText: Option<string>,
    manaCost: Option<string>,
    power: Option<string>,
    toughness: Option<string>,
    loyalty: Option<string>,
    defense: Option<string>,
    lifeModifier: Option<string>,
    handModifier: Option<string>,
    colors: Option<set<ColorEnum.Color>>,
    colorIndicator: Option<set<ColorEnum.Color>>,
    colorIdentity: Option<set<ColorEnum.Color>>,
    allParts: Option<seq<Part>>,
    cardFaces: Option<seq<Face>>,
    legalities: Option<map<string, LegalityEnum.Legality>>,
    setCode: string,   // the "set" field
    setName: Option<string>,
    collectorNumber: Option<string>,
    rarity: Option<RarityEnum.Rarity>,
    flavorText: Option<string>,
    printedName: Option<string>,
    frame: Option<CardFrameEnum.CardFrame>,
    uri: Option<string>)  // the record's uri, as text

  /** api/Set.java. */
  datatype Set = Set(code: Option<string>, name: Option<string>, setType: Option<SetTypeEnum.SetType>)

  /**
   * What oracleId() answers: the record's own oracle id when set; otherwise
   * the oracle id every face shares, which fails when there are no faces,
   * when the first face has none or when two faces disagree; a null face
   * list throws NullPointerException.
   */
  function OracleIdOf(c: Card): Result<Uuid>
  {
    if c.oracleId.Some? then Ok(c.oracleId.value)
    else if c.cardFaces.None? then Err(NullPointer)
    else if c.cardFaces.value == [] || c.cardFaces.value[0].oracleId.None? then Err(IllegalState)
    else if SharedOracleId(c.cardFaces.value, c.cardFaces.value[0].oracleId.value) then Ok(c.cardFaces.value[0].oracleId.value)
    else Err(IllegalState)
  }

  /** Every face carries the oracle id u. */
  predicate SharedOracleId(faces: seq<Face>, u: Uuid)
  {
    forall i :: 0 <= i < |faces| ==> faces[i].oracleId == Some(u)
  }

  /**
   * oracleId(): the loop over the faces, returning the record with the
   * answer cached in its oracleId field after a successful search.
   */
  method OracleId(c: Card) returns (r: Result<Uuid>, cached: Card)
    ensures r == OracleIdOf(c)
    ensures cached == if r.Ok? then c.(oracleId := Some(r.value)) else c
  {
    if c.oracleId.Some? {
      return Ok(c.oracleId.value), c;
    }
    if c.cardFaces.None? {
      return Err(NullPointer), c;
    }
    var faces := c.cardFaces.value;
    if faces == [] {
      return Err(IllegalState), c;
    }
    var id: Option<Uuid> := None;
    var i := 0;
    while i < |faces|
      invariant 0 <= i <= |faces|
      invariant i == 0 ==> id == None
      invariant i > 0 ==> id == faces[0].oracleId && id.Some?
      invariant forall j :: 0 <= j < i ==> faces[j].oracleId == id
    {
      if id.None? {
        id := faces[i].oracleId;
      }
      if id.None? {
        return Err(IllegalState), c;
      }
      if Some(id.value) != faces[i].oracleId {
        return Err(IllegalState), c;
      }
      i := i + 1;
    }
    return Ok(id.value), c.(oracleId := id);
  }

  /**
   * Without an own oracle id the answer is u exactly when there are faces
   * and all of them carry u; with one, it is that id.
   */
  lemma OracleIdMeaning(c: Card, u: Uuid)
    ensures c.oracleId.Some? ==> OracleIdOf(c) == Ok(c.oracleId.value)
    ensures c.oracleId.None? ==>
      (OracleIdOf(c) == Ok(u) <==> c.cardFaces.Some? && |c.cardFaces.value| > 0 && SharedOracleId(c.cardFaces.value, u))
    ensures c.oracleId.None? && c.cardFaces.None? ==> OracleIdOf(c) == Err(NullPointer)
  {
    if c.oracleId.None? && c.cardFaces.Some? && |c.cardFaces.value| > 0 && SharedOracleId(c.cardFaces.value, u) {
      assert c.cardFaces.value[0].oracleId == Some(u);
    }
  }

  /** After one successful call the answer is served from the field: a second call returns it and caches nothing new. */
  lemma OracleIdMemoised(c: Card)
    requires OracleIdOf(c).Ok?
    ensures var d := c.(oracleId := Some(OracleIdOf(c).value));
      OracleIdOf(d) == OracleIdOf(c) && d.(oracleId := Some(OracleIdOf(d).value)) == d
  {
  }
}
