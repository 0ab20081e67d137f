/**
 * ScryfallCardFactory.java: turns one card record into cards, faces,
 * printings and sets.  create() dispatches on the record's layout; each
 * builder looks the card up by an id computed from its names and rules text,
 * and creates the card, its faces, its set, its printing and the printing's
 * faces only where none is registered yet (computeIfAbsent).  The builders
 * remove the records they consume from the map of pending records.
 *
 * Object identity is modelled by registry keys: a card is the entry of
 * `cards` under its id, a printing the entry of that card's printings under
 * the printing id (a PrintingRef names it), a set the entry of `sets` under
 * its code.  Faces are objects, so two cards can share one face.  A record
 * is identified by its id, which is also its key in the pending map.
 */
module CardFactory {
  import opened Base
  import opened FaceKinds
  import ApiCard
  import CL = CardLayoutEnum
  import ScryfallFaces
  import PrintedFaces
  import ScryfallPrintings
  import ScryfallSets

  type Uuid = ApiCard.Uuid
  type Card = ApiCard.Card
  type Face<M, T> = ScryfallFaces.ScryfallFace<M, T>

  /** The printing registered under `id` in the printings of card `card`. */
  datatype PrintingRef = PrintingRef(card: Uuid, id: Uuid)

  type PrintedFace<M, T> = PrintedFaces.PrintedFace<PrintingRef, Face<M, T>>
  /** A printing knows its set by code and its card by id. */
  type Printing<M, T> = ScryfallPrintings.Printing<string, Uuid, PrintedFace<M, T>>
  type SetNode = ScryfallSets.ScryfallSet<PrintingRef>

  /** The card the factory builds: its first record, its faces by kind and its printings by id. */
  datatype CardNode<M, T> = CardNode(source: Card, faces: map<Kind, Face<M, T>>, printings: map<Uuid, Printing<M, T>>)

  // ---------------------------------------------------------------- layouts

  /** Layouts that create() hands to createSimple (Normal after its special cases). */
  predicate SimpleLayout(l: CL.CardLayout)
  {
    l.Normal? || l.Augment? || l.Host? || l.Leveler? || l.Planar? || l.Scheme? || l.Vanguard? || l.Saga?
  }

  /** Layouts whose card id is built from their first two faces. */
  predicate TwoFaceLayout(l: CL.CardLayout)
  {
    l.Split? || l.Flip? || l.Transform? || l.Adventure? || l.ModalDFC?
  }

  /** Layouts that are not cards. */
  predicate TokenLayout(l: CL.CardLayout)
  {
    l.Token? || l.DoubleFacedToken? || l.Emblem?
  }

  /** Where create() sends a record. */
  datatype Route = NullLayout | Simple | SplitCard | FlipCard | TransformCard | MeldCard | AdventureCard | NotACard | Unexpected

  function RouteOf(layout: Option<CL.CardLayout>): (r: Route)
    ensures r == NullLayout <==> layout.None?
  {
    if layout.None? then NullLayout
    else
      var l := layout.value;
      if l.Split? then SplitCard
      else if l.Flip? then FlipCard
      else if l.Transform? || l.ModalDFC? then TransformCard
      else if l.Meld? then MeldCard
      else if l.Adventure? then AdventureCard
      else if SimpleLayout(l) then Simple
      else if TokenLayout(l) then NotACard
      else Unexpected
  }

  /**
   * The dispatch is closed: the simple layouts go to createSimple, tokens
   * and emblems build nothing, each multi-part layout has its own builder,
   * and exactly the remaining layouts are unexpected.
   */
  lemma RouteMeaning(l: CL.CardLayout)
    ensures RouteOf(Some(l)) == Simple <==> SimpleLayout(l)
    ensures RouteOf(Some(l)) == NotACard <==> TokenLayout(l)
    ensures RouteOf(Some(l)) == TransformCard <==> l.Transform? || l.ModalDFC?
    ensures RouteOf(Some(l)) == SplitCard <==> l.Split?
    ensures RouteOf(Some(l)) == FlipCard <==> l.Flip?
    ensures RouteOf(Some(l)) == MeldCard <==> l.Meld?
    ensures RouteOf(Some(l)) == AdventureCard <==> l.Adventure?
    ensures RouteOf(Some(l)) == Unexpected <==>
      l.ArtSeries? || l.Class? || l.ReversibleCard? || l.Mutate? || l.Prototype? || l.Case? || l.Unrecognized?
  {
  }

  // ---------------------------------------------------------------- card ids

  /** calculateCardUUID's text for a one-part card. */
  function SingleIdText(c: Card): string
  {
    JStr(c.name) + "\n" + JStr(c.oracleText)
  }

  /** calculateCardUUID's text for a two-face card: each face's name and rules text, then a blank line, "//" and a blank line between them. */
  function FacesIdText(c: Card): (r: Result<string>)
    ensures r.Err? <==> c.cardFaces.None? || |c.cardFaces.value| < 2
    ensures c.cardFaces.None? ==> r == Err(NullPointer)
    ensures c.cardFaces.Some? && |c.cardFaces.value| < 2 ==> r == Err(IndexOutOfBounds)
  {
    if c.cardFaces.None? then Err(NullPointer)
    else if |c.cardFaces.value| < 2 then Err(IndexOutOfBounds)
    else
      var f0, f1 := c.cardFaces.value[0], c.cardFaces.value[1];
      Ok(JStr(f0.name) + "\n" + JStr(f0.oracleText) + "\n" + "\n//\n\n" + JStr(f1.name) + "\n" + JStr(f1.oracleText))
  }

  /** calculateCardUUID(parts, front): the front record's name and rules text, then the back's, in the two-face shape. */
  function MeldIdText(front: Card, back: Card): string
  {
    JStr(front.name) + "\n" + JStr(front.oracleText) + "\n" + "\n//\n\n" + JStr(back.name) + "\n" + JStr(back.oracleText)
  }

  /** calculateCardUUID(jsonCards, jsonCard): the text whose name-based UUID is the card's id. */
  function IdText(jsonCards: map<Uuid, Card>, c: Card): Result<string>
  {
    match RouteOf(c.layout)
    case NullLayout => Err(NullPointer)
    case Simple => Ok(SingleIdText(c))
    case MeldCard =>
      var parts := MeldPartsOf(jsonCards, c);
      if parts.Err? then Err(parts.error) else Ok(MeldIdText(c, parts.value.back))
    case NotACard => Err(Failure)
    case Unexpected => Err(Failure)
    case _ => FacesIdText(c)
  }

  /**
   * One-part ids are name, newline, rules text; two-face ids are the two
   * one-part texts around "\n" + "\n//\n\n"; tokens, emblems and unknown
   * layouts have no id; and a null layout throws.
   */
  lemma IdTextMeaning(jsonCards: map<Uuid, Card>, c: Card)
    ensures c.layout.None? ==> IdText(jsonCards, c) == Err(NullPointer)
    ensures c.layout.Some? && SimpleLayout(c.layout.value) ==> IdText(jsonCards, c) == Ok(JStr(c.name) + "\n" + JStr(c.oracleText))
    ensures c.layout.Some? && TwoFaceLayout(c.layout.value) ==> IdText(jsonCards, c) == FacesIdText(c)
    ensures c.layout.Some? && TwoFaceLayout(c.layout.value) && c.cardFaces.Some? && |c.cardFaces.value| >= 2 ==>
      var f := c.cardFaces.value;
      IdText(jsonCards, c) == Ok((JStr(f[0].name) + "\n" + JStr(f[0].oracleText)) + "\n" + "\n//\n\n" + (JStr(f[1].name) + "\n" + JStr(f[1].oracleText)))
    ensures c.layout.Some? && TokenLayout(c.layout.value) ==> IdText(jsonCards, c) == Err(Failure)
  {
    if c.layout.Some? {
      RouteMeaning(c.layout.value);
    }
    if c.layout.Some? && TwoFaceLayout(c.layout.value) && c.cardFaces.Some? && |c.cardFaces.value| >= 2 {
      var f := c.cardFaces.value;
      var a, b, x, y := JStr(f[0].name), JStr(f[0].oracleText), JStr(f[1].name), JStr(f[1].oracleText);
      assert a + "\n" + b + "\n" + "\n//\n\n" + x + "\n" + y == (a + "\n" + b) + "\n" + "\n//\n\n" + (x + "\n" + y);
    }
  }

  /** Two records of the same non-meld layout with the same names and rules texts (their own and their first two faces') get the same id text. */
  lemma IdTextDependsOnlyOnText(jm1: map<Uuid, Card>, jm2: map<Uuid, Card>, c: Card, d: Card)
    requires c.layout == d.layout && c.layout != Some(CL.Meld)
    requires c.name == d.name && c.oracleText == d.oracleText
    requires c.cardFaces.None? <==> d.cardFaces.None?
    requires c.cardFaces.Some? ==> (|c.cardFaces.value| < 2 <==> |d.cardFaces.value| < 2)
    requires c.cardFaces.Some? && |c.cardFaces.value| >= 2 ==>
      forall i :: 0 <= i < 2 ==> c.cardFaces.value[i].name == d.cardFaces.value[i].name && c.cardFaces.value[i].oracleText == d.cardFaces.value[i].oracleText
    ensures IdText(jm1, c) == IdText(jm2, d)
  {
    if c.cardFaces.Some? && |c.cardFaces.value| >= 2 {
      assert c.cardFaces.value[0].name == d.cardFaces.value[0].name && c.cardFaces.value[0].oracleText == d.cardFaces.value[0].oracleText;
      assert c.cardFaces.value[1].name == d.cardFaces.value[1].name && c.cardFaces.value[1].oracleText == d.cardFaces.value[1].oracleText;
    }
  }

  /** The text of a two-face id is one character longer than the "//"-joined text of CardId: it has an extra newline before the separator. */
  lemma FacesTextHasExtraNewline(f0: ApiCard.Face, f1: ApiCard.Face, c: Card)
    requires c.cardFaces == Some([f0, f1])
    ensures var pair := JStr(f0.name) + "\n" + JStr(f0.oracleText) + "\n//\n\n" + JStr(f1.name) + "\n" + JStr(f1.oracleText);
      && FacesIdText(c).Ok?
      && |FacesIdText(c).value| == |pair| + 1
      && FacesIdText(c).value != pair
  {
  }

  // ---------------------------------------------------------------- meld parts

  /** The sentence that marks the active half of a meld pair. */
  const MeldPhrase: string := "then meld them into"

  /** The collector-number pattern of a meld back face: ^[0-9]+bs?$. */
  predicate MeldBackNumber(s: string)
  {
    || (|s| >= 2 && s[|s| - 1] == 'b' && AllDigits(s[..|s| - 1]))
    || (|s| >= 3 && s[|s| - 2..] == "bs" && AllDigits(s[..|s| - 2]))
  }

  predicate IsMeldBack(c: Card)
  {
    c.collectorNumber.Some? && MeldBackNumber(c.collectorNumber.value)
  }

  /** jsonCards.get(part.id): null for a null id or an id not (or no longer) pending. */
  function Lookup(jsonCards: map<Uuid, Card>, id: Option<Uuid>): (r: Option<Card>)
    ensures r.Some? <==> id.Some? && id.value in jsonCards
    ensures r.Some? ==> r.value == jsonCards[id.value]
  {
    if id.Some? && id.value in jsonCards then Some(jsonCards[id.value]) else None
  }

  /** The stream allParts.map(part -> jsonCards.get(part.id)). */
  function Candidates(jsonCards: map<Uuid, Card>, parts: seq<ApiCard.Part>): (r: seq<Option<Card>>)
    ensures |r| == |parts|
    ensures forall i :: 0 <= i < |parts| ==> r[i] == Lookup(jsonCards, parts[i].id)
  {
    seq(|parts|, i requires 0 <= i < |parts| => Lookup(jsonCards, parts[i].id))
  }

  /** The first non-null candidate with a back-face number. */
  function FindBack(cs: seq<Option<Card>>): (r: Option<Card>)
    ensures r.Some? ==> Some(r.value) in cs && IsMeldBack(r.value)
    ensures r.None? ==> forall i :: 0 <= i < |cs| ==> !(cs[i].Some? && IsMeldBack(cs[i].value))
  {
    if cs == [] then None
    else if cs[0].Some? && IsMeldBack(cs[0].value) then cs[0]
    else
      assert cs == [cs[0]] + cs[1..];
      FindBack(cs[1..])
  }

  /**
   * The first candidate that is none of `excluded`.  A null candidate passes
   * the filter, and findAny of a null element throws NullPointerException;
   * no candidate at all throws AssertionError.
   */
  function FindOther(cs: seq<Option<Card>>, excluded: set<Card>): (r: Result<Card>)
    ensures r.Ok? ==> Some(r.value) in cs && r.value !in excluded
    ensures r == Err(AssertionFailed) <==> forall i :: 0 <= i < |cs| ==> cs[i].Some? && cs[i].value in excluded
    ensures r.Err? ==> r.error == AssertionFailed || r.error == NullPointer
  {
    if cs == [] then Err(AssertionFailed)
    else if cs[0].None? then Err(NullPointer)
    else if cs[0].value !in excluded then Ok(cs[0].value)
    else
      var rest := FindOther(cs[1..], excluded);
      assert forall i :: 1 <= i < |cs| ==> cs[i] == cs[1..][i - 1];
      rest
  }

  /** MeldParts: the back half and the active and passive fronts. */
  datatype MeldParts = MeldParts(back: Card, active: Card, passive: Card)

  /** new MeldParts(jsonCards, jsonCard) */
  function MeldPartsOf(jsonCards: map<Uuid, Card>, c: Card): Result<MeldParts>
  {
    if c.allParts.None? then Err(NullPointer)
    else
      var cs := Candidates(jsonCards, c.allParts.value);
      var back := FindBack(cs);
      if back.None? then Err(AssertionFailed)
      else
        var front1 := FindOther(cs, {back.value});
        if front1.Err? then Err(front1.error)
        else
          var front2 := FindOther(cs, {back.value, front1.value});
          if front2.Err? then Err(front2.error)
          else if front1.value.oracleText.None? then Err(NullPointer)
          else if Contains(front1.value.oracleText.value, MeldPhrase) then Ok(MeldParts(back.value, front1.value, front2.value))
          else if front2.value.oracleText.None? then Err(NullPointer)
          else if Contains(front2.value.oracleText.value, MeldPhrase) then Ok(MeldParts(back.value, front2.value, front1.value))
          else Err(Failure)
  }

  /** A candidate looked up from the pending map is one of its records. */
  lemma CandidateIsPending(jsonCards: map<Uuid, Card>, parts: seq<ApiCard.Part>, x: Card)
    requires Some(x) in Candidates(jsonCards, parts)
    ensures exists id :: id in jsonCards && jsonCards[id] == x
  {
    var cs := Candidates(jsonCards, parts);
    var i :| 0 <= i < |cs| && cs[i] == Some(x);
    assert Lookup(jsonCards, parts[i].id) == Some(x);
  }

  /** Pending records are stored under their own ids. */
  predicate KeyedById(jsonCards: map<Uuid, Card>)
  {
    forall id :: id in jsonCards ==> jsonCards[id].id == id
  }

  /**
   * The three meld parts are pending records; the back has a back-face
   * collector number; the fronts differ from the back and from each other;
   * the active front's rules text holds the meld sentence, and when the
   * first front found holds it, that front is the active one.  Without
   * parts, or without a back, it throws.
   */
  lemma MeldPartsMeaning(jsonCards: map<Uuid, Card>, c: Card)
    requires KeyedById(jsonCards)
    ensures c.allParts.None? ==> MeldPartsOf(jsonCards, c) == Err(NullPointer)
    ensures c.allParts.Some? && FindBack(Candidates(jsonCards, c.allParts.value)).None? ==> MeldPartsOf(jsonCards, c) == Err(AssertionFailed)
    ensures MeldPartsOf(jsonCards, c).Ok? ==>
      var p := MeldPartsOf(jsonCards, c).value;
      && IsMeldBack(p.back)
      && p.active != p.back && p.passive != p.back && p.active != p.passive
      && p.active.oracleText.Some? && Contains(p.active.oracleText.value, MeldPhrase)
      && p.back.id in jsonCards && jsonCards[p.back.id] == p.back
      && p.active.id in jsonCards && jsonCards[p.active.id] == p.active
      && p.passive.id in jsonCards && jsonCards[p.passive.id] == p.passive
      && p.back.id != p.active.id && p.back.id != p.passive.id && p.active.id != p.passive.id
  {
    if MeldPartsOf(jsonCards, c).Ok? {
      var cs := Candidates(jsonCards, c.allParts.value);
      var p := MeldPartsOf(jsonCards, c).value;
      CandidateIsPending(jsonCards, c.allParts.value, p.back);
      CandidateIsPending(jsonCards, c.allParts.value, p.active);
      CandidateIsPending(jsonCards, c.allParts.value, p.passive);
    }
  }

  // ---------------------------------------------------------------- the Normal layout's special cases

  const BigFurryMonster: string := "B.F.M. (Big Furry Monster)"

  /** The first part whose name differs from `name` (the filter calls name.equals on each part). */
  function FirstOtherPart(parts: seq<ApiCard.Part>, name: string): (r: Option<ApiCard.Part>)
    ensures r.Some? ==> r.value in parts && r.value.name != Some(name)
    ensures r.None? ==> forall i :: 0 <= i < |parts| ==> parts[i].name == Some(name)
  {
    if parts == [] then None
    else if parts[0].name != Some(name) then Some(parts[0])
    else FirstOtherPart(parts[1..], name)
  }

  /**
   * The record create() hands to createSimple for a Normal layout.  All the
   * name-keyed special cases end there; on the way B.F.M. gets "Creature ",
   * the control character U+0097 and a space prefixed to its type line (in
   * place), and a two-part record dereferences its name
   * and the other part's URI.
   */
  function NormalRecord(c: Card): (r: Result<Card>)
  {
    if c.cardFaces.Some? && c.cardFaces.value != [] then Ok(c)
    else if c.allParts.Some? && |c.allParts.value| > 1 then
      if c.name in {Some("Who"), Some("What"), Some("When"), Some("Where"), Some("Why")} then Ok(c)
      else if c.name == Some(BigFurryMonster) then
        if c.typeLine.None? then Err(NullPointer)
        else if StartsWith(c.typeLine.value, "Creature") then Ok(c)
        else Ok(c.(typeLine := Some("Creature \U{0097} " + c.typeLine.value)))
      else if |c.allParts.value| == 2 then
        if c.name.None? then Err(NullPointer)
        else
          var other := FirstOtherPart(c.allParts.value, c.name.value);
          // whether the other part's path looks like a token's, the record goes to createSimple
          if other.Some? && other.value.uriPath.None? then Err(NullPointer) else Ok(c)
      else Ok(c)
    else Ok(c)
  }

  /** Only B.F.M.'s type line is ever changed, and only by prefixing "Creature " followed by U+0097 and a space to one that does not start with "Creature". */
  lemma NormalRecordMeaning(c: Card)
    ensures NormalRecord(c).Ok? ==> NormalRecord(c).value.(typeLine := c.typeLine) == c
    ensures NormalRecord(c).Ok? && NormalRecord(c).value != c ==>
      && c.name == Some(BigFurryMonster) && c.typeLine.Some? && !StartsWith(c.typeLine.value, "Creature")
      && NormalRecord(c).value.typeLine == Some("Creature \U{0097} " + c.typeLine.value)
    ensures NormalRecord(c).Ok? ==> NormalRecord(c).value.typeLine.Some? ==> c.typeLine.Some?
    ensures c.cardFaces.Some? && c.cardFaces.value != [] ==> NormalRecord(c) == Ok(c)
    ensures c.allParts.None? ==> NormalRecord(c) == Ok(c)
  {
  }

  // ---------------------------------------------------------------- registries

  /** Map b keeps every entry of map a. */
  ghost predicate Extends<K, V>(a: map<K, V>, b: map<K, V>)
  {
    forall k :: k in a ==> k in b && b[k] == a[k]
  }

  /** A printing keeps its set, card, record and printed faces. */
  ghost predicate PrintingGrows<M, T>(a: Printing<M, T>, b: Printing<M, T>)
  {
    b.inSet == a.inSet && b.card == a.card && b.cardJson == a.cardJson && Extends(a.faces, b.faces)
  }

  /** A card keeps its source record, its faces and its printings. */
  ghost predicate CardGrows<M, T>(a: CardNode<M, T>, b: CardNode<M, T>)
  {
    && b.source == a.source
    && Extends(a.faces, b.faces)
    && (forall id :: id in a.printings ==> id in b.printings && PrintingGrows(a.printings[id], b.printings[id]))
  }

  /** The five maps create() works on. */
  datatype State<M, T> = State(
    jsonSets: map<string, ApiCard.Set>,
    jsonCards: map<Uuid, Card>,
    sets: map<string, SetNode>,
    cards: map<Uuid, CardNode<M, T>>,
    printings: map<Uuid, PrintingRef>)

  /**
   * Get-or-create only ever adds: the set records stay, pending records are
   * only removed, and every card, set and registered printing id remains
   * with what it held.
   */
  ghost predicate Grows<M, T>(a: State<M, T>, b: State<M, T>)
  {
    && b.jsonSets == a.jsonSets
    && Extends(b.jsonCards, a.jsonCards)
    && (forall c :: c in a.cards ==> c in b.cards && CardGrows(a.cards[c], b.cards[c]))
    && (forall code :: code in a.sets ==>
          code in b.sets && b.sets[code].setJson == a.sets[code].setJson && a.sets[code].printings.Keys <= b.sets[code].printings.Keys)
    && a.printings.Keys <= b.printings.Keys
  }

  lemma GrowsReflexive<M, T>(a: State<M, T>)
    ensures Grows(a, a)
  {
  }

  lemma GrowsTransitive<M, T>(a: State<M, T>, b: State<M, T>, c: State<M, T>)
    requires Grows(a, b) && Grows(b, c)
    ensures Grows(a, c)
  {
    forall x | x in a.cards
      ensures x in c.cards && CardGrows(a.cards[x], c.cards[x])
    {
      assert CardGrows(a.cards[x], b.cards[x]) && CardGrows(b.cards[x], c.cards[x]);
      forall id | id in a.cards[x].printings
        ensures id in c.cards[x].printings && PrintingGrows(a.cards[x].printings[id], c.cards[x].printings[id])
      {
        assert PrintingGrows(a.cards[x].printings[id], b.cards[x].printings[id]);
      }
    }
  }

  /** r names a printing that exists. */
  ghost predicate Resolves<M, T>(cards: map<Uuid, CardNode<M, T>>, r: PrintingRef)
  {
    r.card in cards && r.id in cards[r.card].printings
  }

  /** Pending records are stored under their own ids. */
  ghost predicate PendingKeyed<M, T>(s: State<M, T>)
  {
    KeyedById(s.jsonCards)
  }

  /** A card's printing under id is a printing of that card whose record has that id, and its printed faces point back to it. */
  ghost predicate PrintingsOwned<M, T>(s: State<M, T>)
  {
    && (forall c, id :: c in s.cards && id in s.cards[c].printings ==>
          s.cards[c].printings[id].cardJson.id == id && s.cards[c].printings[id].card == c)
    && (forall c, id, k :: c in s.cards && id in s.cards[c].printings && k in s.cards[c].printings[id].faces ==>
          s.cards[c].printings[id].faces[k].printing == PrintingRef(c, id))
  }

  /** Every registered printing exists and is registered under its own id. */
  ghost predicate RegisteredResolve<M, T>(s: State<M, T>)
  {
    && (forall id :: id in s.printings ==> s.printings[id].id == id && Resolves(s.cards, s.printings[id]))
    && (forall code, id :: code in s.sets && id in s.sets[code].printings ==>
          s.sets[code].printings[id].id == id && Resolves(s.cards, s.sets[code].printings[id]))
  }

  ghost predicate Inv<M, T>(s: State<M, T>)
  {
    PendingKeyed(s) && PrintingsOwned(s) && RegisteredResolve(s)
  }

  /** Growing the cards keeps every registered printing resolvable. */
  lemma ResolveKept<M, T>(s: State<M, T>, t: State<M, T>)
    requires RegisteredResolve(s) && t.printings == s.printings && t.sets == s.sets
    requires forall c :: c in s.cards ==> c in t.cards && s.cards[c].printings.Keys <= t.cards[c].printings.Keys
    ensures RegisteredResolve(t)
  {
  }

  /** Card cid's printings are printings of cid under their own ids, and their printed faces point back to them. */
  ghost predicate NodeOwned<M, T>(cid: Uuid, node: CardNode<M, T>)
  {
    && (forall id :: id in node.printings ==> node.printings[id].cardJson.id == id && node.printings[id].card == cid)
    && (forall id, k :: id in node.printings && k in node.printings[id].faces ==>
          node.printings[id].faces[k].printing == PrintingRef(cid, id))
  }

  lemma NodeStepGrows<M, T>(s: State<M, T>, cid: Uuid, node: CardNode<M, T>)
    requires cid in s.cards ==> CardGrows(s.cards[cid], node)
    ensures Grows(s, s.(cards := s.cards[cid := node]))
  {
  }

  lemma NodeStepOwned<M, T>(s: State<M, T>, cid: Uuid, node: CardNode<M, T>)
    requires PrintingsOwned(s) && NodeOwned(cid, node)
    ensures PrintingsOwned(s.(cards := s.cards[cid := node]))
  {
  }

  /** Replacing card cid by a grown card whose printings are its own keeps the invariant and only grows. */
  lemma NodeStep<M, T>(s: State<M, T>, cid: Uuid, node: CardNode<M, T>)
    requires Inv(s) && NodeOwned(cid, node)
    requires cid in s.cards ==> CardGrows(s.cards[cid], node)
    ensures var t := s.(cards := s.cards[cid := node]); Inv(t) && Grows(s, t)
  {
    var t := s.(cards := s.cards[cid := node]);
    NodeStepGrows(s, cid, node);
    NodeStepOwned(s, cid, node);
    ResolveKept(s, t);
  }


  // The steps of get-or-create, as functions of the five maps.

  /** jsonCards.values().remove(c), for the record c pending under its id. */
  function Forgotten<M, T>(s: State<M, T>, id: Uuid): (t: State<M, T>)
    ensures t.jsonCards == s.jsonCards - {id}
    ensures t.jsonSets == s.jsonSets && t.sets == s.sets && t.cards == s.cards && t.printings == s.printings
  {
    s.(jsonCards := s.jsonCards - {id})
  }

  /** cards.computeIfAbsent(cid, c -> new ScryfallCard(source)): the card there, else a new one without faces or printings. */
  function WithCard<M, T>(s: State<M, T>, cid: Uuid, source: Card): (t: State<M, T>)
    ensures t.jsonSets == s.jsonSets && t.jsonCards == s.jsonCards && t.sets == s.sets && t.printings == s.printings
    ensures t.cards.Keys == s.cards.Keys + {cid}
    ensures forall c :: c in s.cards ==> t.cards[c] == s.cards[c]
    ensures cid !in s.cards ==> t.cards[cid] == CardNode(source, map[], map[])
  {
    if cid in s.cards then s else s.(cards := s.cards[cid := CardNode(source, map[], map[])])
  }

  /** card.faces.computeIfAbsent(kind, k -> f): card cid's face of that kind, else f; nothing else changes. */
  function WithFace<M, T>(s: State<M, T>, cid: Uuid, kind: Kind, f: Face<M, T>): (t: State<M, T>)
    requires cid in s.cards
    ensures t.jsonSets == s.jsonSets && t.jsonCards == s.jsonCards && t.sets == s.sets && t.printings == s.printings
    ensures t.cards.Keys == s.cards.Keys
    ensures forall c :: c in s.cards && c != cid ==> t.cards[c] == s.cards[c]
    ensures forall c :: c in s.cards ==> s.cards[c].faces.Keys <= t.cards[c].faces.Keys
    ensures kind in t.cards[cid].faces
    ensures t.cards[cid] == s.cards[cid].(faces := s.cards[cid].faces[kind := t.cards[cid].faces[kind]])
    ensures t.cards[cid].faces[kind] == if kind in s.cards[cid].faces then s.cards[cid].faces[kind] else f
  {
    var node := s.cards[cid];
    if kind in node.faces then s else s.(cards := s.cards[cid := node.(faces := node.faces[kind := f])])
  }

  /** jsonSets.get(code): null for an unknown code. */
  function SetRecord(jsonSets: map<string, ApiCard.Set>, code: string): (r: Option<ApiCard.Set>)
    ensures r.Some? <==> code in jsonSets
    ensures r.Some? ==> r.value == jsonSets[code]
  {
    if code in jsonSets then Some(jsonSets[code]) else None
  }

  /** sets.computeIfAbsent(code, c -> new ScryfallSet(jsonSets.get(c))): the set there, else a new empty one holding the set record. */
  function WithSet<M, T>(s: State<M, T>, code: string): (t: State<M, T>)
    ensures t.jsonSets == s.jsonSets && t.jsonCards == s.jsonCards && t.cards == s.cards && t.printings == s.printings
    ensures t.sets.Keys == s.sets.Keys + {code}
    ensures forall c :: c in s.sets ==> t.sets[c] == s.sets[c]
    ensures code !in s.sets ==> t.sets[code] == ScryfallSets.New(SetRecord(s.jsonSets, code))
  {
    if code in s.sets then s else s.(sets := s.sets[code := ScryfallSets.New(SetRecord(s.jsonSets, code))])
  }

  /** card.printings.computeIfAbsent(json.id, id -> new ScryfallPrinting(set, card, json)): card cid's printing of json, else a new one in set `code`. */
  function WithPrinting<M, T>(s: State<M, T>, cid: Uuid, code: string, json: Card): (t: State<M, T>)
    requires cid in s.cards
    ensures t.jsonSets == s.jsonSets && t.jsonCards == s.jsonCards && t.sets == s.sets && t.printings == s.printings
    ensures t.cards.Keys == s.cards.Keys
    ensures forall c :: c in s.cards && c != cid ==> t.cards[c] == s.cards[c]
    ensures json.id in t.cards[cid].printings
    ensures t.cards[cid] == s.cards[cid].(printings := s.cards[cid].printings[json.id := t.cards[cid].printings[json.id]])
    ensures t.cards[cid].printings[json.id] ==
      if json.id in s.cards[cid].printings then s.cards[cid].printings[json.id] else ScryfallPrintings.New(code, cid, json)
  {
    var node := s.cards[cid];
    if json.id in node.printings then s
    else s.(cards := s.cards[cid := node.(printings := node.printings[json.id := ScryfallPrintings.New(code, cid, json)])])
  }

  /** print.faces.computeIfAbsent(kind, k -> new ScryfallPrintedFace(print, face, cardJson, faceJson)) on printing id of card cid. */
  function WithPrintedFace<M, T>(s: State<M, T>, cid: Uuid, id: Uuid, kind: Kind, face: Face<M, T>,
                                 cardJson: Card, faceJson: Option<ApiCard.Face>): (t: State<M, T>)
    requires cid in s.cards && id in s.cards[cid].printings
    ensures t.jsonSets == s.jsonSets && t.jsonCards == s.jsonCards && t.sets == s.sets && t.printings == s.printings
    ensures t.cards.Keys == s.cards.Keys
    ensures forall c :: c in s.cards && c != cid ==> t.cards[c] == s.cards[c]
    ensures var p := s.cards[cid].printings[id];
      && id in t.cards[cid].printings && kind in t.cards[cid].printings[id].faces
      && t.cards[cid] == s.cards[cid].(printings := s.cards[cid].printings[id := p.(faces := p.faces[kind := t.cards[cid].printings[id].faces[kind]])])
      && t.cards[cid].printings[id].faces[kind] ==
           if kind in p.faces then p.faces[kind] else PrintedFaces.PrintedFace(PrintingRef(cid, id), face, cardJson, faceJson)
  {
    var node := s.cards[cid];
    var p := node.printings[id];
    if kind in p.faces then
      assert p.faces[kind := p.faces[kind]] == p.faces;
      assert node.printings[id := p] == node.printings;
      s
    else
      var pf := PrintedFaces.PrintedFace(PrintingRef(cid, id), face, cardJson, faceJson);
      s.(cards := s.cards[cid := node.(printings := node.printings[id := p.(faces := p.faces[kind := pf])])])
  }

  /** set.printings.put(print.id(), print) */
  function InSet<M, T>(s: State<M, T>, code: string, r: PrintingRef): (t: State<M, T>)
    requires code in s.sets
    ensures t.jsonSets == s.jsonSets && t.jsonCards == s.jsonCards && t.cards == s.cards && t.printings == s.printings
    ensures t.sets == s.sets[code := ScryfallSets.AddPrinting(s.sets[code], r.id, r)]
  {
    s.(sets := s.sets[code := ScryfallSets.AddPrinting(s.sets[code], r.id, r)])
  }

  /** printings.put(print.id(), print) */
  function Listed<M, T>(s: State<M, T>, r: PrintingRef): (t: State<M, T>)
    ensures t.jsonSets == s.jsonSets && t.jsonCards == s.jsonCards && t.cards == s.cards && t.sets == s.sets
    ensures t.printings == s.printings[r.id := r]
  {
    s.(printings := s.printings[r.id := r])
  }

  // Each step keeps the invariant and only grows.

  lemma ForgetStep<M, T>(s: State<M, T>, id: Uuid)
    requires Inv(s)
    ensures Inv(Forgotten(s, id)) && Grows(s, Forgotten(s, id))
  {
  }

  lemma CardStep<M, T>(s: State<M, T>, cid: Uuid, source: Card)
    requires Inv(s)
    ensures Inv(WithCard(s, cid, source)) && Grows(s, WithCard(s, cid, source))
  {
    if cid !in s.cards {
      NodeStep(s, cid, CardNode(source, map[], map[]));
    } else {
      GrowsReflexive(s);
    }
  }

  lemma FaceStep<M, T>(s: State<M, T>, cid: Uuid, kind: Kind, f: Face<M, T>)
    requires Inv(s) && cid in s.cards
    ensures Inv(WithFace(s, cid, kind, f)) && Grows(s, WithFace(s, cid, kind, f))
  {
    if kind !in s.cards[cid].faces {
      NodeStep(s, cid, s.cards[cid].(faces := s.cards[cid].faces[kind := f]));
    } else {
      GrowsReflexive(s);
    }
  }

  lemma SetStep<M, T>(s: State<M, T>, code: string)
    requires Inv(s)
    ensures Inv(WithSet(s, code)) && Grows(s, WithSet(s, code))
  {
    if code !in s.sets {
      var t := s.(sets := s.sets[code := ScryfallSets.New(SetRecord(s.jsonSets, code))]);
      assert t.sets[code].printings == map[];
      assert forall c, id :: c in t.sets && id in t.sets[c].printings ==> c != code && t.sets[c].printings[id] == s.sets[c].printings[id];
    } else {
      GrowsReflexive(s);
    }
  }

  lemma PrintingStep<M, T>(s: State<M, T>, cid: Uuid, code: string, json: Card)
    requires Inv(s) && cid in s.cards
    ensures Inv(WithPrinting(s, cid, code, json)) && Grows(s, WithPrinting(s, cid, code, json))
  {
    var node := s.cards[cid];
    if json.id !in node.printings {
      var node' := node.(printings := node.printings[json.id := ScryfallPrintings.New(code, cid, json)]);
      assert NodeOwned(cid, node) by {
        assert forall id :: id in node.printings ==> node.printings[id] == s.cards[cid].printings[id];
      }
      NodeStep(s, cid, node');
    } else {
      GrowsReflexive(s);
    }
  }

  lemma PrintedFaceOwned<M, T>(cid: Uuid, node: CardNode<M, T>, id: Uuid, kind: Kind, pf: PrintedFace<M, T>)
    requires NodeOwned(cid, node) && id in node.printings && pf.printing == PrintingRef(cid, id)
    ensures var p := node.printings[id]; NodeOwned(cid, node.(printings := node.printings[id := p.(faces := p.faces[kind := pf])]))
  {
    var p := node.printings[id];
    var node' := node.(printings := node.printings[id := p.(faces := p.faces[kind := pf])]);
    forall i, k | i in node'.printings && k in node'.printings[i].faces
      ensures node'.printings[i].faces[k].printing == PrintingRef(cid, i)
    {
      if i == id && k != kind {
        assert node'.printings[i].faces[k] == p.faces[k];
      }
    }
  }

  lemma PrintedFaceGrows<M, T>(node: CardNode<M, T>, id: Uuid, kind: Kind, pf: PrintedFace<M, T>)
    requires id in node.printings && kind !in node.printings[id].faces
    ensures var p := node.printings[id]; CardGrows(node, node.(printings := node.printings[id := p.(faces := p.faces[kind := pf])]))
  {
    var p := node.printings[id];
    assert PrintingGrows(p, p.(faces := p.faces[kind := pf]));
  }

  lemma PrintedFaceStep<M, T>(s: State<M, T>, cid: Uuid, id: Uuid, kind: Kind, face: Face<M, T>, cardJson: Card, faceJson: Option<ApiCard.Face>)
    requires Inv(s) && cid in s.cards && id in s.cards[cid].printings
    ensures var t := WithPrintedFace(s, cid, id, kind, face, cardJson, faceJson); Inv(t) && Grows(s, t)
  {
    var node := s.cards[cid];
    var p := node.printings[id];
    if kind !in p.faces {
      var pf := PrintedFaces.PrintedFace(PrintingRef(cid, id), face, cardJson, faceJson);
      assert NodeOwned(cid, node);
      PrintedFaceOwned(cid, node, id, kind, pf);
      PrintedFaceGrows(node, id, kind, pf);
      NodeStep(s, cid, node.(printings := node.printings[id := p.(faces := p.faces[kind := pf])]));
    } else {
      GrowsReflexive(s);
    }
  }

  lemma InSetStep<M, T>(s: State<M, T>, code: string, r: PrintingRef)
    requires Inv(s) && code in s.sets && Resolves(s.cards, r)
    ensures Inv(InSet(s, code, r)) && Grows(s, InSet(s, code, r))
  {
    var t := InSet(s, code, r);
    forall c, i | c in t.sets && i in t.sets[c].printings
      ensures t.sets[c].printings[i].id == i && Resolves(t.cards, t.sets[c].printings[i])
    {
      if c != code || i != r.id {
        assert t.sets[c].printings[i] == s.sets[c].printings[i];
      }
    }
  }

  lemma ListedStep<M, T>(s: State<M, T>, r: PrintingRef)
    requires Inv(s) && Resolves(s.cards, r)
    ensures Inv(Listed(s, r)) && Grows(s, Listed(s, r))
  {
  }

  // What a builder leaves behind, as seen from the state `before` it started in.

  /** Card cid exists: the one of `before`, else a new one whose source is `source`. */
  ghost predicate CardAssigned<M, T>(before: State<M, T>, s: State<M, T>, cid: Uuid, source: Card)
  {
    cid in s.cards && (cid !in before.cards ==> s.cards[cid].source == source)
  }

  /** Set `code` exists: the one of `before`, else a new one holding the set record of that code. */
  ghost predicate SetAssigned<M, T>(before: State<M, T>, s: State<M, T>, code: string)
  {
    code in s.sets && (code !in before.sets ==> s.sets[code].setJson == SetRecord(s.jsonSets, code))
  }

  ghost predicate HadFace<M, T>(before: State<M, T>, cid: Uuid, k: Kind)
  {
    cid in before.cards && k in before.cards[cid].faces
  }

  /** `faces` has a face of kind k: card cid's face of that kind in `before`, else one built from cardJson and faceJson. */
  ghost predicate FaceIn<M, T>(before: State<M, T>, cid: Uuid, k: Kind, faces: map<Kind, Face<M, T>>, cardJson: Card, faceJson: Option<ApiCard.Face>)
  {
    && k in faces
    && (HadFace(before, cid, k) ==> faces[k] == before.cards[cid].faces[k])
    && (!HadFace(before, cid, k) ==> faces[k].cardJson == cardJson && faces[k].faceJson == faceJson)
  }

  /** Card cid has a face of kind k: the one it had in `before`, else one built from cardJson and faceJson. */
  ghost predicate FaceAssigned<M, T>(before: State<M, T>, s: State<M, T>, cid: Uuid, k: Kind, cardJson: Card, faceJson: Option<ApiCard.Face>)
  {
    cid in s.cards && FaceIn(before, cid, k, s.cards[cid].faces, cardJson, faceJson)
  }

  ghost predicate HadPrinting<M, T>(before: State<M, T>, cid: Uuid, id: Uuid)
  {
    cid in before.cards && id in before.cards[cid].printings
  }

  /** `printings` holds the printing of record json: card cid's printing of it in `before`, else a new one of card cid in set `code`. */
  ghost predicate PrintingIn<M, T>(before: State<M, T>, cid: Uuid, code: string, json: Card, printings: map<Uuid, Printing<M, T>>)
  {
    && json.id in printings
    && (!HadPrinting(before, cid, json.id) ==>
          printings[json.id].inSet == code && printings[json.id].card == cid && printings[json.id].cardJson == json)
  }

  /** Card cid has the printing of record json: the one it had in `before`, else a new one in set `code`. */
  ghost predicate PrintingAssigned<M, T>(before: State<M, T>, s: State<M, T>, cid: Uuid, code: string, json: Card)
  {
    cid in s.cards && PrintingIn(before, cid, code, json, s.cards[cid].printings)
  }

  ghost predicate HadPrintedFace<M, T>(before: State<M, T>, cid: Uuid, id: Uuid, k: Kind)
  {
    HadPrinting(before, cid, id) && k in before.cards[cid].printings[id].faces
  }

  /** `faces` has a printed face of kind k: the one printing id of card cid had in `before`, else one of face f built from cardJson and faceJson. */
  ghost predicate PrintedFaceIn<M, T>(before: State<M, T>, cid: Uuid, id: Uuid, k: Kind, faces: map<Kind, PrintedFace<M, T>>, f: Face<M, T>,
                                      cardJson: Card, faceJson: Option<ApiCard.Face>)
  {
    && k in faces
    && (HadPrintedFace(before, cid, id, k) ==> faces[k] == before.cards[cid].printings[id].faces[k])
    && (!HadPrintedFace(before, cid, id, k) ==> faces[k] == PrintedFaces.PrintedFace(PrintingRef(cid, id), f, cardJson, faceJson))
  }

  /** Printing id of card cid has a printed face of kind k: the one it had in `before`, else one of face f built from cardJson and faceJson. */
  ghost predicate PrintedFaceAssigned<M, T>(before: State<M, T>, s: State<M, T>, cid: Uuid, id: Uuid, k: Kind, f: Face<M, T>,
                                            cardJson: Card, faceJson: Option<ApiCard.Face>)
  {
    && cid in s.cards && id in s.cards[cid].printings
    && PrintedFaceIn(before, cid, id, k, s.cards[cid].printings[id].faces, f, cardJson, faceJson)
  }

  /** Printing id of card cid is registered in set `code` and in the printing registry. */
  ghost predicate Registered<M, T>(s: State<M, T>, code: string, cid: Uuid, id: Uuid)
  {
    && code in s.sets && id in s.sets[code].printings && s.sets[code].printings[id] == PrintingRef(cid, id)
    && id in s.printings && s.printings[id] == PrintingRef(cid, id)
  }

  /** Card cid has the faces it had in `before`, or none if it is new since then. */
  ghost predicate FacesAsBefore<M, T>(before: State<M, T>, s: State<M, T>, cid: Uuid)
  {
    cid in s.cards && s.cards[cid].faces == (if cid in before.cards then before.cards[cid].faces else map[])
  }

  /** Card cid's printing id is the one it had in `before`, or absent if it was absent then. */
  ghost predicate PrintingAsBefore<M, T>(before: State<M, T>, s: State<M, T>, cid: Uuid, id: Uuid)
  {
    && cid in s.cards
    && (id in s.cards[cid].printings <==> HadPrinting(before, cid, id))
    && (HadPrinting(before, cid, id) ==> s.cards[cid].printings[id] == before.cards[cid].printings[id])
  }

  /** `faces` has a face of kind k: card cid's face of that kind in `before`, else f (computeIfAbsent's result). */
  ghost predicate FaceIs<M, T>(before: State<M, T>, cid: Uuid, k: Kind, faces: map<Kind, Face<M, T>>, f: Face<M, T>)
  {
    k in faces && faces[k] == if HadFace(before, cid, k) then before.cards[cid].faces[k] else f
  }

  /** Card cid has a face of kind k and the printing of record id has a printed face of kind k showing it. */
  ghost predicate FacePrinted<M, T>(before: State<M, T>, s: State<M, T>, cid: Uuid, id: Uuid, k: Kind, cardJson: Card, faceJson: Option<ApiCard.Face>)
  {
    && FaceAssigned(before, s, cid, k, cardJson, faceJson)
    && PrintedFaceAssigned(before, s, cid, id, k, s.cards[cid].faces[k], cardJson, faceJson)
  }

  /** Card cid, the set of record json and json's printing of card cid exist, and the printing is registered. */
  ghost predicate PrintingBuilt<M, T>(before: State<M, T>, s: State<M, T>, cid: Uuid, json: Card)
  {
    && CardAssigned(before, s, cid, json)
    && SetAssigned(before, s, json.setCode)
    && PrintingAssigned(before, s, cid, json.setCode, json)
    && Registered(s, json.setCode, cid, json.id)
  }

  /** createSimple builds nothing for a record whose type line starts with "Token" or "Card" (or is null, which throws). */
  predicate BuildsNothing(c: Card)
  {
    c.typeLine.None? || StartsWith(c.typeLine.value, "Token") || StartsWith(c.typeLine.value, "Card")
  }

  /** The adventure's main face (type line starting "Creature") or adventure face (type line ending "Adventure"). */
  predicate AdventurePart(typeLine: string, main: bool)
  {
    if main then StartsWith(typeLine, "Creature") else EndsWith(typeLine, "Adventure")
  }

  /** The first face that is the main (or adventure) part; a null type line met on the way throws, and no such face is an AssertionError. */
  function FindFace(faces: seq<ApiCard.Face>, main: bool): (r: Result<ApiCard.Face>)
    ensures r.Ok? ==> r.value in faces && r.value.typeLine.Some? && AdventurePart(r.value.typeLine.value, main)
    ensures r.Err? ==> r.error == NullPointer || r.error == AssertionFailed
    ensures r == Err(AssertionFailed) <==> forall i :: 0 <= i < |faces| ==> faces[i].typeLine.Some? && !AdventurePart(faces[i].typeLine.value, main)
  {
    if faces == [] then Err(AssertionFailed)
    else if faces[0].typeLine.None? then Err(NullPointer)
    else if AdventurePart(faces[0].typeLine.value, main) then Ok(faces[0])
    else
      var rest := FindFace(faces[1..], main);
      assert forall i :: 1 <= i < |faces| ==> faces[i] == faces[1..][i - 1];
      rest
  }

  /** The record createSimple receives: a Normal record after its special cases, any other record as it is. */
  function SimpleRecord(c: Card): Result<Card>
  {
    if c.layout == Some(CL.Normal) then NormalRecord(c) else Ok(c)
  }

  /** Removing a present key shrinks a map by one. */
  lemma RemoveShrinks<K, V>(m: map<K, V>, k: K)
    requires k in m
    ensures |m - {k}| == |m| - 1
  {
    assert (m - {k}).Keys == m.Keys - {k};
  }


  // ---------------------------------------------------------------- the builders' stages

  /** set.printings.put(print.id(), print), then printings.put(print.id(), print). */
  function Enrolled<M, T>(s: State<M, T>, code: string, r: PrintingRef): (t: State<M, T>)
    requires code in s.sets
    ensures t.jsonSets == s.jsonSets && t.jsonCards == s.jsonCards && t.cards == s.cards
    ensures t.sets.Keys == s.sets.Keys && forall c :: c in s.sets ==> t.sets[c].setJson == s.sets[c].setJson
    ensures Registered(t, code, r.card, r.id)
  {
    Listed(InSet(s, code, r), r)
  }

  /** createSimple's first steps: the record is no longer pending; card cid, its front face (f unless it has one), the record's set. */
  function SimpleStart<M, T>(s: State<M, T>, json: Card, cid: Uuid, f: Face<M, T>): (t: State<M, T>)
    ensures cid in t.cards && Front in t.cards[cid].faces && json.setCode in t.sets
  {
    WithSet(WithFace(WithCard(Forgotten(s, json.id), cid, json), cid, Front, f), json.setCode)
  }

  /** The first steps of the two-face builders and of createAdventure: card cid, the removal of the record, the record's set. */
  function TwoFaceStart<M, T>(s: State<M, T>, json: Card, cid: Uuid): (t: State<M, T>)
    ensures cid in t.cards && json.setCode in t.sets
  {
    WithSet(Forgotten(WithCard(s, cid, json), json.id), json.setCode)
  }

  /** Faces k0 and k1 of card cid: p0 and p1 unless it has them. */
  function WithTwoFaces<M, T>(s: State<M, T>, cid: Uuid, k0: Kind, p0: Face<M, T>, k1: Kind, p1: Face<M, T>): (t: State<M, T>)
    requires cid in s.cards
    ensures t.jsonSets == s.jsonSets && t.jsonCards == s.jsonCards && t.sets == s.sets && t.printings == s.printings
    ensures t.cards.Keys == s.cards.Keys
    ensures forall c :: c in s.cards && c != cid ==> t.cards[c] == s.cards[c]
    ensures forall c :: c in s.cards ==> s.cards[c].faces.Keys <= t.cards[c].faces.Keys
    ensures k0 in t.cards[cid].faces && k1 in t.cards[cid].faces
  {
    WithFace(WithFace(s, cid, k0, p0), cid, k1, p1)
  }

  /** json's printing of card cid (a new one in set `code` unless it has one) with a printed face of kind k showing g. */
  function PrintedOne<M, T>(s: State<M, T>, cid: Uuid, code: string, json: Card, k: Kind, g: Face<M, T>,
                            cj: Card, fj: Option<ApiCard.Face>): (t: State<M, T>)
    requires cid in s.cards
    ensures t.jsonSets == s.jsonSets && t.jsonCards == s.jsonCards && t.sets == s.sets && t.printings == s.printings
    ensures t.cards.Keys == s.cards.Keys
    ensures forall c :: c in s.cards && c != cid ==> t.cards[c] == s.cards[c]
    ensures t.cards[cid].source == s.cards[cid].source && t.cards[cid].faces == s.cards[cid].faces
    ensures t.cards[cid].printings.Keys == s.cards[cid].printings.Keys + {json.id}
  {
    WithPrintedFace(WithPrinting(s, cid, code, json), cid, json.id, k, g, cj, fj)
  }

  /** json's printing of card cid (a new one in set `code` unless it has one) with printed faces of kinds k0 and k1 showing g0 and g1. */
  function PrintedTwo<M, T>(s: State<M, T>, cid: Uuid, code: string, json: Card, k0: Kind, g0: Face<M, T>, cj0: Card, fj0: Option<ApiCard.Face>,
                            k1: Kind, g1: Face<M, T>, cj1: Card, fj1: Option<ApiCard.Face>): (t: State<M, T>)
    requires cid in s.cards
    ensures t.jsonSets == s.jsonSets && t.jsonCards == s.jsonCards && t.sets == s.sets && t.printings == s.printings
    ensures t.cards.Keys == s.cards.Keys
    ensures forall c :: c in s.cards && c != cid ==> t.cards[c] == s.cards[c]
    ensures forall c :: c in s.cards ==>
      t.cards[c].source == s.cards[c].source && t.cards[c].faces == s.cards[c].faces && s.cards[c].printings.Keys <= t.cards[c].printings.Keys
    ensures t.cards[cid].printings.Keys == s.cards[cid].printings.Keys + {json.id}
  {
    WithPrintedFace(PrintedOne(s, cid, code, json, k0, g0, cj0, fj0), cid, json.id, k1, g1, cj1, fj1)
  }

  /** Two printings put into set `code`, then into the printing registry, in that order. */
  function EnrolledTwo<M, T>(s: State<M, T>, code: string, r1: PrintingRef, r2: PrintingRef): (t: State<M, T>)
    requires code in s.sets
    ensures t.jsonSets == s.jsonSets && t.jsonCards == s.jsonCards && t.cards == s.cards
    ensures t.sets.Keys == s.sets.Keys && t.sets[code].setJson == s.sets[code].setJson
    ensures r1.id != r2.id ==> Registered(t, code, r1.card, r1.id) && Registered(t, code, r2.card, r2.id)
  {
    Listed(Listed(InSet(InSet(s, code, r1), code, r2), r1), r2)
  }

  /** createSimple past its type-line checks, with f as the front face should card cid have none. */
  function SimpleBuilt<M, T>(s: State<M, T>, json: Card, cid: Uuid, f: Face<M, T>): State<M, T>
  {
    var s1 := SimpleStart(s, json, cid, f);
    var s2 := PrintedOne(s1, cid, json.setCode, json, Front, s1.cards[cid].faces[Front], json, None);
    Enrolled(s2, json.setCode, PrintingRef(cid, json.id))
  }

  /** A two-face builder for faces k0 and k1 from the face records fj0 and fj1, with p0 and p1 as the faces should card cid lack them. */
  function TwoFaceBuilt<M, T>(s: State<M, T>, json: Card, cid: Uuid, k0: Kind, fj0: Option<ApiCard.Face>, p0: Face<M, T>,
                              k1: Kind, fj1: Option<ApiCard.Face>, p1: Face<M, T>): State<M, T>
  {
    var s1 := WithTwoFaces(TwoFaceStart(s, json, cid), cid, k0, p0, k1, p1);
    var s2 := PrintedTwo(s1, cid, json.setCode, json, k0, s1.cards[cid].faces[k0], json, fj0, k1, s1.cards[cid].faces[k1], json, fj1);
    Enrolled(s2, json.setCode, PrintingRef(cid, json.id))
  }

  /** createMeld's removals: the three parts are no longer pending. */
  function MeldRemoved<M, T>(s: State<M, T>, p: MeldParts): (t: State<M, T>)
    ensures t.jsonCards == s.jsonCards - {p.back.id, p.active.id, p.passive.id}
    ensures t.jsonSets == s.jsonSets && t.sets == s.sets && t.cards == s.cards && t.printings == s.printings
  {
    Forgotten(Forgotten(Forgotten(s, p.back.id), p.active.id), p.passive.id)
  }

  /** createMeld up to its first card: the removals, then card c1 with the active front and the back (f1 and b unless it has them). */
  function MeldFirstCard<M, T>(s: State<M, T>, p: MeldParts, c1: Uuid, f1: Face<M, T>, b: Face<M, T>): (t: State<M, T>)
    ensures c1 in t.cards && Front in t.cards[c1].faces && Transformed in t.cards[c1].faces
  {
    WithTwoFaces(WithCard(MeldRemoved(s, p), c1, p.active), c1, Front, f1, Transformed, b)
  }

  /**
   * createMeld's cards and set: card c1 with the active front and the back
   * (f1 and b unless it has them), card c2 with the passive front (f2 unless
   * it has one) and card c1's back unless it has one, and the active front's set.
   */
  function MeldCards<M, T>(s: State<M, T>, p: MeldParts, c1: Uuid, c2: Uuid, f1: Face<M, T>, b: Face<M, T>, f2: Face<M, T>): (t: State<M, T>)
    ensures c1 in t.cards && c2 in t.cards && p.active.setCode in t.sets
    ensures Front in t.cards[c1].faces && Transformed in t.cards[c1].faces && Front in t.cards[c2].faces
  {
    var s1 := MeldFirstCard(s, p, c1, f1, b);
    var s2 := WithTwoFaces(WithCard(s1, c2, p.passive), c2, Front, f2, Transformed, s1.cards[c1].faces[Transformed]);
    WithSet(s2, p.active.setCode)
  }

  /** createMeld's first printing, in the active front's set, with card c1's front and back printed. */
  function MeldFirstPrinting<M, T>(s: State<M, T>, p: MeldParts, c1: Uuid, c2: Uuid, f1: Face<M, T>, b: Face<M, T>, f2: Face<M, T>): (t: State<M, T>)
    ensures c1 in t.cards && c2 in t.cards && p.active.setCode in t.sets
    ensures Front in t.cards[c1].faces && Transformed in t.cards[c1].faces && Front in t.cards[c2].faces
    ensures p.active.id in t.cards[c1].printings
  {
    var s1 := MeldCards(s, p, c1, c2, f1, b, f2);
    var front, back := s1.cards[c1].faces[Front], s1.cards[c1].faces[Transformed];
    PrintedTwo(s1, c1, p.active.setCode, p.active, Front, front, p.active, None, Transformed, back, p.back, None)
  }

  /** createMeld's printings: then the second, in the same set, with card c2's front and the shared back printed. */
  function MeldPrinted<M, T>(s: State<M, T>, p: MeldParts, c1: Uuid, c2: Uuid, f1: Face<M, T>, b: Face<M, T>, f2: Face<M, T>): (t: State<M, T>)
    ensures c1 in t.cards && c2 in t.cards && p.active.setCode in t.sets
    ensures p.passive.id in t.cards[c2].printings
  {
    var s2 := MeldFirstPrinting(s, p, c1, c2, f1, b, f2);
    var front, back := s2.cards[c2].faces[Front], s2.cards[c1].faces[Transformed];
    PrintedTwo(s2, c2, p.active.setCode, p.passive, Front, front, p.passive, None, Transformed, back, p.back, None)
  }

  /** createMeld: its printings, then both registered in the set and in the printing registry. */
  function MeldBuilt<M, T>(s: State<M, T>, p: MeldParts, c1: Uuid, c2: Uuid, f1: Face<M, T>, b: Face<M, T>, f2: Face<M, T>): State<M, T>
  {
    EnrolledTwo(MeldPrinted(s, p, c1, c2, f1, b, f2), p.active.setCode, PrintingRef(c1, p.active.id), PrintingRef(c2, p.passive.id))
  }

  // Each stage keeps the invariant and only grows.

  lemma EnrolledKeeps<M, T>(s: State<M, T>, code: string, r: PrintingRef)
    requires Inv(s) && code in s.sets && Resolves(s.cards, r)
    ensures Inv(Enrolled(s, code, r)) && Grows(s, Enrolled(s, code, r))
  {
    InSetStep(s, code, r);
    ListedStep(InSet(s, code, r), r);
    GrowsTransitive(s, InSet(s, code, r), Enrolled(s, code, r));
  }

  lemma SimpleStartKeeps<M, T>(s: State<M, T>, json: Card, cid: Uuid, f: Face<M, T>)
    requires Inv(s)
    ensures Inv(SimpleStart(s, json, cid, f)) && Grows(s, SimpleStart(s, json, cid, f))
  {
    var s1 := Forgotten(s, json.id);
    var s2 := WithCard(s1, cid, json);
    var s3 := WithFace(s2, cid, Front, f);
    ForgetStep(s, json.id);
    CardStep(s1, cid, json);
    FaceStep(s2, cid, Front, f);
    SetStep(s3, json.setCode);
    GrowsTransitive(s, s1, s2);
    GrowsTransitive(s, s2, s3);
    GrowsTransitive(s, s3, WithSet(s3, json.setCode));
  }

  lemma TwoFaceStartKeeps<M, T>(s: State<M, T>, json: Card, cid: Uuid)
    requires Inv(s)
    ensures Inv(TwoFaceStart(s, json, cid)) && Grows(s, TwoFaceStart(s, json, cid))
  {
    var s1 := WithCard(s, cid, json);
    var s2 := Forgotten(s1, json.id);
    CardStep(s, cid, json);
    ForgetStep(s1, json.id);
    SetStep(s2, json.setCode);
    GrowsTransitive(s, s1, s2);
    GrowsTransitive(s, s2, WithSet(s2, json.setCode));
  }

  lemma WithTwoFacesKeeps<M, T>(s: State<M, T>, cid: Uuid, k0: Kind, p0: Face<M, T>, k1: Kind, p1: Face<M, T>)
    requires Inv(s) && cid in s.cards
    ensures Inv(WithTwoFaces(s, cid, k0, p0, k1, p1)) && Grows(s, WithTwoFaces(s, cid, k0, p0, k1, p1))
  {
    var s1 := WithFace(s, cid, k0, p0);
    FaceStep(s, cid, k0, p0);
    FaceStep(s1, cid, k1, p1);
    GrowsTransitive(s, s1, WithFace(s1, cid, k1, p1));
  }

  lemma PrintedOneKeeps<M, T>(s: State<M, T>, cid: Uuid, code: string, json: Card, k: Kind, g: Face<M, T>,
                              cj: Card, fj: Option<ApiCard.Face>)
    requires Inv(s) && cid in s.cards
    ensures Inv(PrintedOne(s, cid, code, json, k, g, cj, fj)) && Grows(s, PrintedOne(s, cid, code, json, k, g, cj, fj))
  {
    var s1 := WithPrinting(s, cid, code, json);
    PrintingStep(s, cid, code, json);
    PrintedFaceStep(s1, cid, json.id, k, g, cj, fj);
    GrowsTransitive(s, s1, WithPrintedFace(s1, cid, json.id, k, g, cj, fj));
  }

  lemma PrintedTwoKeeps<M, T>(s: State<M, T>, cid: Uuid, code: string, json: Card, k0: Kind, g0: Face<M, T>, cj0: Card, fj0: Option<ApiCard.Face>,
                              k1: Kind, g1: Face<M, T>, cj1: Card, fj1: Option<ApiCard.Face>)
    requires Inv(s) && cid in s.cards
    ensures var t := PrintedTwo(s, cid, code, json, k0, g0, cj0, fj0, k1, g1, cj1, fj1); Inv(t) && Grows(s, t)
  {
    var s1 := PrintedOne(s, cid, code, json, k0, g0, cj0, fj0);
    PrintedOneKeeps(s, cid, code, json, k0, g0, cj0, fj0);
    PrintedFaceStep(s1, cid, json.id, k1, g1, cj1, fj1);
    GrowsTransitive(s, s1, WithPrintedFace(s1, cid, json.id, k1, g1, cj1, fj1));
  }

  lemma MeldRemovedKeeps<M, T>(s: State<M, T>, p: MeldParts)
    requires Inv(s)
    ensures Inv(MeldRemoved(s, p)) && Grows(s, MeldRemoved(s, p))
  {
    var s1 := Forgotten(s, p.back.id);
    var s2 := Forgotten(s1, p.active.id);
    ForgetStep(s, p.back.id);
    ForgetStep(s1, p.active.id);
    ForgetStep(s2, p.passive.id);
    GrowsTransitive(s, s1, s2);
    GrowsTransitive(s, s2, Forgotten(s2, p.passive.id));
  }

  lemma MeldCardsKeeps<M, T>(s: State<M, T>, p: MeldParts, c1: Uuid, c2: Uuid, f1: Face<M, T>, b: Face<M, T>, f2: Face<M, T>)
    requires Inv(s)
    ensures Inv(MeldCards(s, p, c1, c2, f1, b, f2)) && Grows(s, MeldCards(s, p, c1, c2, f1, b, f2))
  {
    var s0 := MeldRemoved(s, p);
    var a := WithCard(s0, c1, p.active);
    var s1 := WithTwoFaces(a, c1, Front, f1, Transformed, b);
    var a' := WithCard(s1, c2, p.passive);
    var s2 := WithTwoFaces(a', c2, Front, f2, Transformed, s1.cards[c1].faces[Transformed]);
    MeldRemovedKeeps(s, p);
    CardStep(s0, c1, p.active);
    WithTwoFacesKeeps(a, c1, Front, f1, Transformed, b);
    CardStep(s1, c2, p.passive);
    WithTwoFacesKeeps(a', c2, Front, f2, Transformed, s1.cards[c1].faces[Transformed]);
    SetStep(s2, p.active.setCode);
    GrowsTransitive(s, s0, a);
    GrowsTransitive(s, a, s1);
    GrowsTransitive(s, s1, a');
    GrowsTransitive(s, a', s2);
    GrowsTransitive(s, s2, WithSet(s2, p.active.setCode));
  }

  lemma SimpleBuiltKeeps<M, T>(s: State<M, T>, json: Card, cid: Uuid, f: Face<M, T>)
    requires Inv(s)
    ensures Inv(SimpleBuilt(s, json, cid, f)) && Grows(s, SimpleBuilt(s, json, cid, f))
  {
    var s1 := SimpleStart(s, json, cid, f);
    var s2 := PrintedOne(s1, cid, json.setCode, json, Front, s1.cards[cid].faces[Front], json, None);
    SimpleStartKeeps(s, json, cid, f);
    PrintedOneKeeps(s1, cid, json.setCode, json, Front, s1.cards[cid].faces[Front], json, None);
    EnrolledKeeps(s2, json.setCode, PrintingRef(cid, json.id));
    GrowsTransitive(s, s1, s2);
    GrowsTransitive(s, s2, SimpleBuilt(s, json, cid, f));
  }

  lemma TwoFaceBuiltKeeps<M, T>(s: State<M, T>, json: Card, cid: Uuid, k0: Kind, fj0: Option<ApiCard.Face>, p0: Face<M, T>,
                                k1: Kind, fj1: Option<ApiCard.Face>, p1: Face<M, T>)
    requires Inv(s)
    ensures var t := TwoFaceBuilt(s, json, cid, k0, fj0, p0, k1, fj1, p1); Inv(t) && Grows(s, t)
  {
    var s0 := TwoFaceStart(s, json, cid);
    var s1 := WithTwoFaces(s0, cid, k0, p0, k1, p1);
    var s2 := PrintedTwo(s1, cid, json.setCode, json, k0, s1.cards[cid].faces[k0], json, fj0, k1, s1.cards[cid].faces[k1], json, fj1);
    TwoFaceStartKeeps(s, json, cid);
    WithTwoFacesKeeps(s0, cid, k0, p0, k1, p1);
    PrintedTwoKeeps(s1, cid, json.setCode, json, k0, s1.cards[cid].faces[k0], json, fj0, k1, s1.cards[cid].faces[k1], json, fj1);
    EnrolledKeeps(s2, json.setCode, PrintingRef(cid, json.id));
    GrowsTransitive(s, s0, s1);
    GrowsTransitive(s, s1, s2);
    GrowsTransitive(s, s2, TwoFaceBuilt(s, json, cid, k0, fj0, p0, k1, fj1, p1));
  }

  lemma MeldPrintedKeeps<M, T>(s: State<M, T>, p: MeldParts, c1: Uuid, c2: Uuid, f1: Face<M, T>, b: Face<M, T>, f2: Face<M, T>)
    requires Inv(s)
    ensures Inv(MeldPrinted(s, p, c1, c2, f1, b, f2)) && Grows(s, MeldPrinted(s, p, c1, c2, f1, b, f2))
  {
    var s1 := MeldCards(s, p, c1, c2, f1, b, f2);
    var s2 := MeldFirstPrinting(s, p, c1, c2, f1, b, f2);
    MeldCardsKeeps(s, p, c1, c2, f1, b, f2);
    PrintedTwoKeeps(s1, c1, p.active.setCode, p.active, Front, s1.cards[c1].faces[Front], p.active, None,
                    Transformed, s1.cards[c1].faces[Transformed], p.back, None);
    PrintedTwoKeeps(s2, c2, p.active.setCode, p.passive, Front, s2.cards[c2].faces[Front], p.passive, None,
                    Transformed, s2.cards[c1].faces[Transformed], p.back, None);
    GrowsTransitive(s, s1, s2);
    GrowsTransitive(s, s2, MeldPrinted(s, p, c1, c2, f1, b, f2));
  }

  lemma MeldBuiltKeeps<M, T>(s: State<M, T>, p: MeldParts, c1: Uuid, c2: Uuid, f1: Face<M, T>, b: Face<M, T>, f2: Face<M, T>)
    requires Inv(s)
    ensures Inv(MeldBuilt(s, p, c1, c2, f1, b, f2)) && Grows(s, MeldBuilt(s, p, c1, c2, f1, b, f2))
  {
    var s3 := MeldPrinted(s, p, c1, c2, f1, b, f2);
    var code := p.active.setCode;
    var r1, r2 := PrintingRef(c1, p.active.id), PrintingRef(c2, p.passive.id);
    assert MeldBuilt(s, p, c1, c2, f1, b, f2) == Listed(Listed(InSet(InSet(s3, code, r1), code, r2), r1), r2);
    MeldPrintedKeeps(s, p, c1, c2, f1, b, f2);
    assert Resolves(s3.cards, r1) by {
      MeldFirstPrintingReaches(s, p, c1, c2, f1, b, f2);
    }
    var s4 := InSet(s3, code, r1);
    var s5 := InSet(s4, code, r2);
    var s6 := Listed(s5, r1);
    InSetStep(s3, code, r1);
    InSetStep(s4, code, r2);
    ListedStep(s5, r1);
    ListedStep(s6, r2);
    GrowsTransitive(s, s3, s4);
    GrowsTransitive(s, s4, s5);
    GrowsTransitive(s, s5, s6);
    GrowsTransitive(s, s6, Listed(s6, r2));
  }

  /** The second printing's steps keep the first printing. */
  lemma MeldFirstPrintingReaches<M, T>(s: State<M, T>, p: MeldParts, c1: Uuid, c2: Uuid, f1: Face<M, T>, b: Face<M, T>, f2: Face<M, T>)
    ensures p.active.id in MeldPrinted(s, p, c1, c2, f1, b, f2).cards[c1].printings
  {
  }

  // What each stage leaves, seen from the state a builder started in.

  lemma SimpleStartMeaning<M, T>(s: State<M, T>, json: Card, cid: Uuid, f: Face<M, T>)
    requires !HadFace(s, cid, Front) ==> f.cardJson == json && f.faceJson == None
    ensures var t := SimpleStart(s, json, cid, f);
      && t.jsonSets == s.jsonSets && t.jsonCards == s.jsonCards - {json.id}
      && CardAssigned(s, t, cid, json) && SetAssigned(s, t, json.setCode)
      && FaceAssigned(s, t, cid, Front, json, None) && PrintingAsBefore(s, t, cid, json.id)
  {
  }

  lemma TwoFaceStartMeaning<M, T>(s: State<M, T>, json: Card, cid: Uuid)
    ensures var t := TwoFaceStart(s, json, cid);
      && t.jsonSets == s.jsonSets && t.jsonCards == s.jsonCards - {json.id}
      && CardAssigned(s, t, cid, json) && SetAssigned(s, t, json.setCode)
      && FacesAsBefore(s, t, cid) && PrintingAsBefore(s, t, cid, json.id)
  {
  }

  lemma WithTwoFacesMeaning<M, T>(before: State<M, T>, s: State<M, T>, cid: Uuid, k0: Kind, p0: Face<M, T>, k1: Kind, p1: Face<M, T>)
    requires k0 != k1 && FacesAsBefore(before, s, cid)
    ensures var t := WithTwoFaces(s, cid, k0, p0, k1, p1);
      && FaceIs(before, cid, k0, t.cards[cid].faces, p0) && FaceIs(before, cid, k1, t.cards[cid].faces, p1)
      && t.cards[cid].source == s.cards[cid].source && t.cards[cid].printings == s.cards[cid].printings
  {
  }

  lemma PrintedOneMeaning<M, T>(before: State<M, T>, s: State<M, T>, cid: Uuid, code: string, json: Card, k: Kind, g: Face<M, T>,
                                cj: Card, fj: Option<ApiCard.Face>)
    requires PrintingAsBefore(before, s, cid, json.id)
    ensures var t := PrintedOne(s, cid, code, json, k, g, cj, fj);
      && t.cards[cid].faces == s.cards[cid].faces && t.cards[cid].source == s.cards[cid].source
      && PrintingIn(before, cid, code, json, t.cards[cid].printings)
      && PrintedFaceIn(before, cid, json.id, k, t.cards[cid].printings[json.id].faces, g, cj, fj)
  {
  }

  /** The two printed faces' stage, for the printing and its first printed face. */
  lemma PrintedTwoFirst<M, T>(before: State<M, T>, s: State<M, T>, cid: Uuid, code: string, json: Card,
                              k0: Kind, g0: Face<M, T>, cj0: Card, fj0: Option<ApiCard.Face>,
                              k1: Kind, g1: Face<M, T>, cj1: Card, fj1: Option<ApiCard.Face>)
    requires k0 != k1 && PrintingAsBefore(before, s, cid, json.id)
    ensures var t := PrintedTwo(s, cid, code, json, k0, g0, cj0, fj0, k1, g1, cj1, fj1);
      && t.cards[cid].source == s.cards[cid].source
      && PrintingIn(before, cid, code, json, t.cards[cid].printings)
      && PrintedFaceIn(before, cid, json.id, k0, t.cards[cid].printings[json.id].faces, g0, cj0, fj0)
  {
    PrintedOneMeaning(before, s, cid, code, json, k0, g0, cj0, fj0);
  }

  /** The two printed faces' stage, for the second printed face and the card's other printings. */
  lemma PrintedTwoSecond<M, T>(before: State<M, T>, s: State<M, T>, cid: Uuid, code: string, json: Card,
                               k0: Kind, g0: Face<M, T>, cj0: Card, fj0: Option<ApiCard.Face>,
                               k1: Kind, g1: Face<M, T>, cj1: Card, fj1: Option<ApiCard.Face>)
    requires k0 != k1 && PrintingAsBefore(before, s, cid, json.id)
    ensures var t := PrintedTwo(s, cid, code, json, k0, g0, cj0, fj0, k1, g1, cj1, fj1);
      PrintedFaceIn(before, cid, json.id, k1, t.cards[cid].printings[json.id].faces, g1, cj1, fj1)
  {
    var u := PrintedOne(s, cid, code, json, k0, g0, cj0, fj0);
    PrintedOneOtherKind(before, s, cid, code, json, k0, g0, cj0, fj0, k1);
    assert PrintedTwo(s, cid, code, json, k0, g0, cj0, fj0, k1, g1, cj1, fj1) == WithPrintedFace(u, cid, json.id, k1, g1, cj1, fj1);
  }

  /** The one printed face's stage gives json's printing a face of another kind exactly when it had one before, the same one. */
  lemma PrintedOneOtherKind<M, T>(before: State<M, T>, s: State<M, T>, cid: Uuid, code: string, json: Card,
                                  k0: Kind, g0: Face<M, T>, cj0: Card, fj0: Option<ApiCard.Face>, k1: Kind)
    requires k0 != k1 && PrintingAsBefore(before, s, cid, json.id)
    ensures var u := PrintedOne(s, cid, code, json, k0, g0, cj0, fj0);
      && cid in u.cards && json.id in u.cards[cid].printings
      && (k1 in u.cards[cid].printings[json.id].faces <==> HadPrintedFace(before, cid, json.id, k1))
      && (HadPrintedFace(before, cid, json.id, k1) ==>
            u.cards[cid].printings[json.id].faces[k1] == before.cards[cid].printings[json.id].faces[k1])
  {
    var w := WithPrinting(s, cid, code, json);
    var u := WithPrintedFace(w, cid, json.id, k0, g0, cj0, fj0);
    assert u == PrintedOne(s, cid, code, json, k0, g0, cj0, fj0);
    var p := w.cards[cid].printings[json.id];
    var q := u.cards[cid].printings[json.id];
    assert q.faces == p.faces[k0 := q.faces[k0]];
    if HadPrinting(before, cid, json.id) {
      assert p == before.cards[cid].printings[json.id];
    } else {
      assert p.faces == map[];
    }
  }

  /** The two printed faces' stage leaves the card's other printings alone. */
  lemma PrintedTwoOthers<M, T>(s: State<M, T>, cid: Uuid, code: string, json: Card,
                               k0: Kind, g0: Face<M, T>, cj0: Card, fj0: Option<ApiCard.Face>,
                               k1: Kind, g1: Face<M, T>, cj1: Card, fj1: Option<ApiCard.Face>, i: Uuid)
    requires cid in s.cards && i in s.cards[cid].printings && i != json.id
    ensures var t := PrintedTwo(s, cid, code, json, k0, g0, cj0, fj0, k1, g1, cj1, fj1);
      i in t.cards[cid].printings && t.cards[cid].printings[i] == s.cards[cid].printings[i]
  {
  }

  /** The two printed faces' stage leaves every printing of every card other than json's printing of cid as it was. */
  lemma PrintedTwoElsewhere<M, T>(s: State<M, T>, cid: Uuid, code: string, json: Card,
                                  k0: Kind, g0: Face<M, T>, cj0: Card, fj0: Option<ApiCard.Face>,
                                  k1: Kind, g1: Face<M, T>, cj1: Card, fj1: Option<ApiCard.Face>, c: Uuid, i: Uuid)
    requires cid in s.cards && c in s.cards && (c != cid || i != json.id)
    ensures var t := PrintedTwo(s, cid, code, json, k0, g0, cj0, fj0, k1, g1, cj1, fj1);
      && c in t.cards && (i in t.cards[c].printings <==> i in s.cards[c].printings)
      && (i in s.cards[c].printings ==> t.cards[c].printings[i] == s.cards[c].printings[i])
  {
    if c == cid && i in s.cards[c].printings {
      PrintedTwoOthers(s, cid, code, json, k0, g0, cj0, fj0, k1, g1, cj1, fj1, i);
    }
  }

  // What each builder leaves, seen from the state it started in.

  /** createSimple past its checks: card, front face, set and printing exist (old ones kept), the printing is registered. */
  lemma SimpleBuiltMeaning<M, T>(s: State<M, T>, json: Card, cid: Uuid, f: Face<M, T>)
    requires !HadFace(s, cid, Front) ==> f.cardJson == json && f.faceJson == None
    ensures var t := SimpleBuilt(s, json, cid, f);
      && t.jsonSets == s.jsonSets && t.jsonCards == s.jsonCards - {json.id}
      && PrintingBuilt(s, t, cid, json) && FacePrinted(s, t, cid, json.id, Front, json, None)
  {
    var s1 := SimpleStart(s, json, cid, f);
    var g := s1.cards[cid].faces[Front];
    var s2 := PrintedOne(s1, cid, json.setCode, json, Front, g, json, None);
    SimpleStartMeaning(s, json, cid, f);
    PrintedOneMeaning(s, s1, cid, json.setCode, json, Front, g, json, None);
    assert s2.cards[cid].faces == s1.cards[cid].faces;
  }

  /** A two-face builder: card, both faces, set and printing exist (old ones kept), with both faces printed, and the printing is registered. */
  lemma TwoFaceBuiltMeaning<M, T>(s: State<M, T>, json: Card, cid: Uuid, k0: Kind, fj0: Option<ApiCard.Face>, p0: Face<M, T>,
                                  k1: Kind, fj1: Option<ApiCard.Face>, p1: Face<M, T>)
    requires k0 != k1
    requires !HadFace(s, cid, k0) ==> p0.cardJson == json && p0.faceJson == fj0
    requires !HadFace(s, cid, k1) ==> p1.cardJson == json && p1.faceJson == fj1
    ensures var t := TwoFaceBuilt(s, json, cid, k0, fj0, p0, k1, fj1, p1);
      && t.jsonSets == s.jsonSets && t.jsonCards == s.jsonCards - {json.id}
      && PrintingBuilt(s, t, cid, json)
      && FacePrinted(s, t, cid, json.id, k0, json, fj0) && FacePrinted(s, t, cid, json.id, k1, json, fj1)
  {
    var s0 := TwoFaceStart(s, json, cid);
    var s1 := WithTwoFaces(s0, cid, k0, p0, k1, p1);
    var g0, g1 := s1.cards[cid].faces[k0], s1.cards[cid].faces[k1];
    var s2 := PrintedTwo(s1, cid, json.setCode, json, k0, g0, json, fj0, k1, g1, json, fj1);
    TwoFaceStartMeaning(s, json, cid);
    WithTwoFacesMeaning(s, s0, cid, k0, p0, k1, p1);
    assert PrintingAsBefore(s, s1, cid, json.id);
    PrintedTwoFirst(s, s1, cid, json.setCode, json, k0, g0, json, fj0, k1, g1, json, fj1);
    PrintedTwoSecond(s, s1, cid, json.setCode, json, k0, g0, json, fj0, k1, g1, json, fj1);
    assert s2.cards[cid].faces == s1.cards[cid].faces;
  }

  /** The faces createMeld proposes are built from the parts, for whichever of them card c1 and card c2 lack. */
  ghost predicate MeldProposals<M, T>(s: State<M, T>, p: MeldParts, c1: Uuid, c2: Uuid, f1: Face<M, T>, b: Face<M, T>, f2: Face<M, T>)
  {
    && (!HadFace(s, c1, Front) ==> f1.cardJson == p.active && f1.faceJson == None)
    && (!HadFace(s, c1, Transformed) ==> b.cardJson == p.back && b.faceJson == None)
    && (c1 != c2 && !HadFace(s, c2, Front) ==> f2.cardJson == p.passive && f2.faceJson == None)
  }

  lemma MeldFirstMeaning<M, T>(s: State<M, T>, p: MeldParts, c1: Uuid, f1: Face<M, T>, b: Face<M, T>)
    requires !HadFace(s, c1, Front) ==> f1.cardJson == p.active && f1.faceJson == None
    requires !HadFace(s, c1, Transformed) ==> b.cardJson == p.back && b.faceJson == None
    ensures var t := MeldFirstCard(s, p, c1, f1, b);
      && CardAssigned(s, t, c1, p.active)
      && FaceAssigned(s, t, c1, Front, p.active, None) && FaceAssigned(s, t, c1, Transformed, p.back, None)
      && PrintingAsBefore(s, t, c1, p.active.id) && PrintingAsBefore(s, t, c1, p.passive.id)
  {
    var a := WithCard(MeldRemoved(s, p), c1, p.active);
    WithTwoFacesMeaning(s, a, c1, Front, f1, Transformed, b);
  }

  /** After the first card, a different card c2 still has the faces and printings it had at the start. */
  lemma MeldOtherCard<M, T>(s: State<M, T>, p: MeldParts, c1: Uuid, c2: Uuid, f1: Face<M, T>, b: Face<M, T>)
    requires c1 != c2
    ensures var a := WithCard(MeldFirstCard(s, p, c1, f1, b), c2, p.passive);
      FacesAsBefore(s, a, c2) && PrintingAsBefore(s, a, c2, p.passive.id) && (c2 !in s.cards ==> a.cards[c2].source == p.passive)
  {
    var a := WithCard(MeldRemoved(s, p), c1, p.active);
    var s1 := MeldFirstCard(s, p, c1, f1, b);
    if c2 in s.cards {
      assert a.cards[c2] == s.cards[c2];
      assert s1.cards[c2] == s.cards[c2];
    } else {
      assert c2 !in s1.cards;
    }
  }

  /** Before createMeld gives its cards faces, each has the faces it had at the start. */
  lemma MeldStartFaces<M, T>(s: State<M, T>, p: MeldParts, c1: Uuid, c2: Uuid, f1: Face<M, T>, b: Face<M, T>)
    ensures var a := WithCard(MeldRemoved(s, p), c1, p.active);
      HadFace(a, c1, Front) == HadFace(s, c1, Front) && HadFace(a, c1, Transformed) == HadFace(s, c1, Transformed)
    ensures c1 != c2 ==> HadFace(MeldFirstCard(s, p, c1, f1, b), c2, Front) == HadFace(s, c2, Front)
  {
    if c1 != c2 {
      MeldOtherCard(s, p, c1, c2, f1, b);
    }
  }

  /** When both fronts name the same card, the second card's steps change nothing. */
  lemma MeldSecondSameCard<M, T>(s: State<M, T>, p: MeldParts, c1: Uuid, c2: Uuid, f1: Face<M, T>, b: Face<M, T>, f2: Face<M, T>)
    requires c1 == c2
    ensures MeldCards(s, p, c1, c2, f1, b, f2) == WithSet(MeldFirstCard(s, p, c1, f1, b), p.active.setCode)
  {
    var s1 := MeldFirstCard(s, p, c1, f1, b);
    var a := WithCard(s1, c2, p.passive);
    assert a == s1;
    var a' := WithFace(a, c2, Front, f2);
    assert a' == a;
    assert WithFace(a', c2, Transformed, s1.cards[c1].faces[Transformed]) == a;
  }

  /** The second card's steps leave another first card as they found it. */
  lemma MeldSecondOtherCard<M, T>(s: State<M, T>, p: MeldParts, c1: Uuid, c2: Uuid, f1: Face<M, T>, b: Face<M, T>, f2: Face<M, T>)
    requires c1 != c2
    ensures var s1 := MeldFirstCard(s, p, c1, f1, b); var t := MeldCards(s, p, c1, c2, f1, b, f2);
      && t.cards[c1] == s1.cards[c1] && t.jsonSets == s1.jsonSets && t.jsonCards == s1.jsonCards
      && t.sets == WithSet(s1, p.active.setCode).sets
  {
    var s1 := MeldFirstCard(s, p, c1, f1, b);
    var a := WithCard(s1, c2, p.passive);
    assert a.cards[c1] == s1.cards[c1];
    var s2 := WithTwoFaces(a, c2, Front, f2, Transformed, s1.cards[c1].faces[Transformed]);
    assert s2.cards[c1] == a.cards[c1];
    assert MeldCards(s, p, c1, c2, f1, b, f2) == WithSet(s2, p.active.setCode);
  }

  /** The second card's steps leave the first card as they found it. */
  lemma MeldSecondKeepsFirst<M, T>(s: State<M, T>, p: MeldParts, c1: Uuid, c2: Uuid, f1: Face<M, T>, b: Face<M, T>, f2: Face<M, T>)
    ensures var s1 := MeldFirstCard(s, p, c1, f1, b); var t := MeldCards(s, p, c1, c2, f1, b, f2);
      && t.cards[c1] == s1.cards[c1] && t.jsonSets == s1.jsonSets && t.jsonCards == s1.jsonCards
      && t.sets == WithSet(s1, p.active.setCode).sets
  {
    if c1 == c2 {
      MeldSecondSameCard(s, p, c1, c2, f1, b, f2);
    } else {
      MeldSecondOtherCard(s, p, c1, c2, f1, b, f2);
    }
  }

  /** createMeld's first card, as its cards and set leave it: its faces. */
  lemma MeldCardsFirstFaces<M, T>(s: State<M, T>, p: MeldParts, c1: Uuid, c2: Uuid, f1: Face<M, T>, b: Face<M, T>, f2: Face<M, T>)
    requires MeldProposals(s, p, c1, c2, f1, b, f2)
    ensures var t := MeldCards(s, p, c1, c2, f1, b, f2);
      && CardAssigned(s, t, c1, p.active)
      && FaceAssigned(s, t, c1, Front, p.active, None) && FaceAssigned(s, t, c1, Transformed, p.back, None)
  {
    MeldFirstMeaning(s, p, c1, f1, b);
    MeldSecondKeepsFirst(s, p, c1, c2, f1, b, f2);
  }

  /** createMeld's first card, as its cards and set leave it: the pending records, the set and the printing. */
  lemma MeldCardsFirstRest<M, T>(s: State<M, T>, p: MeldParts, c1: Uuid, c2: Uuid, f1: Face<M, T>, b: Face<M, T>, f2: Face<M, T>)
    requires MeldProposals(s, p, c1, c2, f1, b, f2)
    ensures var t := MeldCards(s, p, c1, c2, f1, b, f2);
      && t.jsonSets == s.jsonSets && t.jsonCards == s.jsonCards - {p.back.id, p.active.id, p.passive.id}
      && SetAssigned(s, t, p.active.setCode) && PrintingAsBefore(s, t, c1, p.active.id)
  {
    MeldFirstMeaning(s, p, c1, f1, b);
    MeldSecondKeepsFirst(s, p, c1, c2, f1, b, f2);
  }

  /** createMeld's second card, a card other than the first: its own front, the first card's back unless it has one. */
  lemma MeldCardsSecondApart<M, T>(s: State<M, T>, p: MeldParts, c1: Uuid, c2: Uuid, f1: Face<M, T>, b: Face<M, T>, f2: Face<M, T>)
    requires c1 != c2 && MeldProposals(s, p, c1, c2, f1, b, f2)
    ensures var t := MeldCards(s, p, c1, c2, f1, b, f2);
      && CardAssigned(s, t, c2, p.passive) && FaceAssigned(s, t, c2, Front, p.passive, None)
      && FaceIs(s, c2, Transformed, t.cards[c2].faces, t.cards[c1].faces[Transformed])
      && PrintingAsBefore(s, t, c2, p.passive.id)
  {
    var s1 := MeldFirstCard(s, p, c1, f1, b);
    var a := WithCard(s1, c2, p.passive);
    MeldOtherCard(s, p, c1, c2, f1, b);
    WithTwoFacesMeaning(s, a, c2, Front, f2, Transformed, s1.cards[c1].faces[Transformed]);
    MeldSecondKeepsFirst(s, p, c1, c2, f1, b, f2);
  }

  /** createMeld's second card when it is the first: nothing more changes. */
  lemma MeldCardsSecondSame<M, T>(s: State<M, T>, p: MeldParts, c1: Uuid, c2: Uuid, f1: Face<M, T>, b: Face<M, T>, f2: Face<M, T>)
    requires c1 == c2 && MeldProposals(s, p, c1, c2, f1, b, f2)
    ensures var t := MeldCards(s, p, c1, c2, f1, b, f2);
      && FaceIs(s, c2, Transformed, t.cards[c2].faces, t.cards[c1].faces[Transformed])
      && PrintingAsBefore(s, t, c2, p.passive.id)
  {
    MeldFirstMeaning(s, p, c1, f1, b);
    MeldSecondKeepsFirst(s, p, c1, c2, f1, b, f2);
  }

  /** createMeld's first printing: card c1's printing of the active front, with the front and the back printed. */
  lemma MeldFirstPrintingMeaning<M, T>(s: State<M, T>, p: MeldParts, c1: Uuid, c2: Uuid, f1: Face<M, T>, b: Face<M, T>, f2: Face<M, T>)
    requires MeldProposals(s, p, c1, c2, f1, b, f2)
    ensures var t := MeldFirstPrinting(s, p, c1, c2, f1, b, f2);
      && PrintingAssigned(s, t, c1, p.active.setCode, p.active)
      && PrintedFaceAssigned(s, t, c1, p.active.id, Front, t.cards[c1].faces[Front], p.active, None)
      && PrintedFaceAssigned(s, t, c1, p.active.id, Transformed, t.cards[c1].faces[Transformed], p.back, None)
  {
    var s1 := MeldCards(s, p, c1, c2, f1, b, f2);
    var front, back := s1.cards[c1].faces[Front], s1.cards[c1].faces[Transformed];
    MeldCardsFirstRest(s, p, c1, c2, f1, b, f2);
    PrintedTwoFirst(s, s1, c1, p.active.setCode, p.active, Front, front, p.active, None, Transformed, back, p.back, None);
    PrintedTwoSecond(s, s1, c1, p.active.setCode, p.active, Front, front, p.active, None, Transformed, back, p.back, None);
  }

  /** A printing as it was in `before` stays so in a state whose card holds the same printing under that id. */
  lemma PrintingAsBeforeKept<M, T>(before: State<M, T>, u: State<M, T>, t: State<M, T>, cid: Uuid, id: Uuid)
    requires PrintingAsBefore(before, u, cid, id) && cid in t.cards
    requires id in t.cards[cid].printings <==> id in u.cards[cid].printings
    requires id in u.cards[cid].printings ==> t.cards[cid].printings[id] == u.cards[cid].printings[id]
    ensures PrintingAsBefore(before, t, cid, id)
  {
  }

  /** The first printing leaves the cards' faces and sources alone. */
  lemma MeldFirstPrintingFrames<M, T>(s: State<M, T>, p: MeldParts, c1: Uuid, c2: Uuid, f1: Face<M, T>, b: Face<M, T>, f2: Face<M, T>)
    ensures var s1 := MeldCards(s, p, c1, c2, f1, b, f2); var t := MeldFirstPrinting(s, p, c1, c2, f1, b, f2);
      && t.cards[c1].faces == s1.cards[c1].faces && t.cards[c2].faces == s1.cards[c2].faces
      && t.cards[c1].source == s1.cards[c1].source && t.cards[c2].source == s1.cards[c2].source
  {
  }

  /** createMeld's cards leave card c2's printing of the passive front as it was at the start. */
  lemma MeldCardsKeepPassive<M, T>(s: State<M, T>, p: MeldParts, c1: Uuid, c2: Uuid, f1: Face<M, T>, b: Face<M, T>, f2: Face<M, T>)
    requires MeldProposals(s, p, c1, c2, f1, b, f2)
    ensures PrintingAsBefore(s, MeldCards(s, p, c1, c2, f1, b, f2), c2, p.passive.id)
  {
    if c1 != c2 {
      MeldCardsSecondApart(s, p, c1, c2, f1, b, f2);
    } else {
      MeldCardsSecondSame(s, p, c1, c2, f1, b, f2);
    }
  }

  /** The first printing leaves card c2's printing of the passive front as it was at the start. */
  lemma MeldFirstPrintingKeeps<M, T>(s: State<M, T>, p: MeldParts, c1: Uuid, c2: Uuid, f1: Face<M, T>, b: Face<M, T>, f2: Face<M, T>)
    requires p.active.id != p.passive.id && MeldProposals(s, p, c1, c2, f1, b, f2)
    ensures PrintingAsBefore(s, MeldFirstPrinting(s, p, c1, c2, f1, b, f2), c2, p.passive.id)
  {
    var s1 := MeldCards(s, p, c1, c2, f1, b, f2);
    var front, back := s1.cards[c1].faces[Front], s1.cards[c1].faces[Transformed];
    MeldCardsKeepPassive(s, p, c1, c2, f1, b, f2);
    PrintedTwoElsewhere(s1, c1, p.active.setCode, p.active, Front, front, p.active, None, Transformed, back, p.back, None, c2, p.passive.id);
    PrintingAsBeforeKept(s, s1, MeldFirstPrinting(s, p, c1, c2, f1, b, f2), c2, p.passive.id);
  }

  /** createMeld's second printing: card c2's printing of the passive front, with its front and the shared back printed. */
  lemma MeldPrintedMeaning<M, T>(s: State<M, T>, p: MeldParts, c1: Uuid, c2: Uuid, f1: Face<M, T>, b: Face<M, T>, f2: Face<M, T>)
    requires p.active.id != p.passive.id && MeldProposals(s, p, c1, c2, f1, b, f2)
    ensures var t := MeldPrinted(s, p, c1, c2, f1, b, f2);
      && Front in t.cards[c2].faces && Transformed in t.cards[c1].faces
      && PrintingAssigned(s, t, c2, p.active.setCode, p.passive)
      && PrintedFaceAssigned(s, t, c2, p.passive.id, Front, t.cards[c2].faces[Front], p.passive, None)
      && PrintedFaceAssigned(s, t, c2, p.passive.id, Transformed, t.cards[c1].faces[Transformed], p.back, None)
  {
    var s2 := MeldFirstPrinting(s, p, c1, c2, f1, b, f2);
    var front, back := s2.cards[c2].faces[Front], s2.cards[c1].faces[Transformed];
    MeldFirstPrintingKeeps(s, p, c1, c2, f1, b, f2);
    PrintedTwoFirst(s, s2, c2, p.active.setCode, p.passive, Front, front, p.passive, None, Transformed, back, p.back, None);
    PrintedTwoSecond(s, s2, c2, p.active.setCode, p.passive, Front, front, p.passive, None, Transformed, back, p.back, None);
  }

  /** The second printing leaves the cards' faces and sources alone. */
  lemma MeldPrintedFrames<M, T>(s: State<M, T>, p: MeldParts, c1: Uuid, c2: Uuid, f1: Face<M, T>, b: Face<M, T>, f2: Face<M, T>)
    ensures var s2 := MeldFirstPrinting(s, p, c1, c2, f1, b, f2); var t := MeldPrinted(s, p, c1, c2, f1, b, f2);
      && t.cards[c1].faces == s2.cards[c1].faces && t.cards[c2].faces == s2.cards[c2].faces
      && t.cards[c1].source == s2.cards[c1].source && t.cards[c2].source == s2.cards[c2].source
  {
  }

  /** The second printing leaves card c1's printing of the active front alone. */
  lemma MeldPrintedKeepsFirst<M, T>(s: State<M, T>, p: MeldParts, c1: Uuid, c2: Uuid, f1: Face<M, T>, b: Face<M, T>, f2: Face<M, T>)
    requires p.active.id != p.passive.id
    ensures var s2 := MeldFirstPrinting(s, p, c1, c2, f1, b, f2); var t := MeldPrinted(s, p, c1, c2, f1, b, f2);
      p.active.id in t.cards[c1].printings && t.cards[c1].printings[p.active.id] == s2.cards[c1].printings[p.active.id]
  {
    var s2 := MeldFirstPrinting(s, p, c1, c2, f1, b, f2);
    var front, back := s2.cards[c2].faces[Front], s2.cards[c1].faces[Transformed];
    PrintedTwoElsewhere(s2, c2, p.active.setCode, p.passive, Front, front, p.passive, None, Transformed, back, p.back, None, c1, p.active.id);
  }

  /** createMeld's registrations change neither cards nor pending records, and register both printings in the active front's set. */
  lemma MeldBuiltRegisters<M, T>(s: State<M, T>, p: MeldParts, c1: Uuid, c2: Uuid, f1: Face<M, T>, b: Face<M, T>, f2: Face<M, T>)
    requires p.active.id != p.passive.id
    ensures var s3 := MeldPrinted(s, p, c1, c2, f1, b, f2); var t := MeldBuilt(s, p, c1, c2, f1, b, f2);
      && t.cards == s3.cards && t.jsonSets == s3.jsonSets && t.jsonCards == s3.jsonCards
      && p.active.setCode in t.sets && t.sets[p.active.setCode].setJson == s3.sets[p.active.setCode].setJson
      && Registered(t, p.active.setCode, c1, p.active.id) && Registered(t, p.active.setCode, c2, p.passive.id)
  {
  }

  /** createMeld's printings leave the pending records and the set as its cards left them. */
  lemma MeldPrintedRest<M, T>(s: State<M, T>, p: MeldParts, c1: Uuid, c2: Uuid, f1: Face<M, T>, b: Face<M, T>, f2: Face<M, T>)
    requires MeldProposals(s, p, c1, c2, f1, b, f2)
    ensures var t := MeldPrinted(s, p, c1, c2, f1, b, f2);
      && t.jsonSets == s.jsonSets && t.jsonCards == s.jsonCards - {p.back.id, p.active.id, p.passive.id}
      && SetAssigned(s, t, p.active.setCode)
  {
    MeldCardsFirstRest(s, p, c1, c2, f1, b, f2);
  }

  /** createMeld's first card at the end: its source, its active front and its back. */
  lemma MeldBuiltFirstCard<M, T>(s: State<M, T>, p: MeldParts, c1: Uuid, c2: Uuid, f1: Face<M, T>, b: Face<M, T>, f2: Face<M, T>)
    requires p.active.id != p.passive.id && MeldProposals(s, p, c1, c2, f1, b, f2)
    ensures var t := MeldBuilt(s, p, c1, c2, f1, b, f2);
      && CardAssigned(s, t, c1, p.active)
      && FaceAssigned(s, t, c1, Front, p.active, None) && FaceAssigned(s, t, c1, Transformed, p.back, None)
  {
    var s1 := MeldCards(s, p, c1, c2, f1, b, f2);
    var s3 := MeldPrinted(s, p, c1, c2, f1, b, f2);
    MeldCardsFirstFaces(s, p, c1, c2, f1, b, f2);
    MeldFirstPrintingFrames(s, p, c1, c2, f1, b, f2);
    MeldPrintedFrames(s, p, c1, c2, f1, b, f2);
    MeldBuiltRegisters(s, p, c1, c2, f1, b, f2);
    assert s3.cards[c1].faces == s1.cards[c1].faces && s3.cards[c1].source == s1.cards[c1].source;
  }

  /** createMeld's first printing at the end: the active front's printing of card c1, with the front and the back printed. */
  lemma MeldBuiltFirstPrinting<M, T>(s: State<M, T>, p: MeldParts, c1: Uuid, c2: Uuid, f1: Face<M, T>, b: Face<M, T>, f2: Face<M, T>)
    requires p.active.id != p.passive.id && MeldProposals(s, p, c1, c2, f1, b, f2)
    ensures var t := MeldBuilt(s, p, c1, c2, f1, b, f2);
      && PrintingAssigned(s, t, c1, p.active.setCode, p.active)
      && PrintedFaceAssigned(s, t, c1, p.active.id, Front, t.cards[c1].faces[Front], p.active, None)
      && PrintedFaceAssigned(s, t, c1, p.active.id, Transformed, t.cards[c1].faces[Transformed], p.back, None)
  {
    var s2 := MeldFirstPrinting(s, p, c1, c2, f1, b, f2);
    var s3 := MeldPrinted(s, p, c1, c2, f1, b, f2);
    MeldFirstPrintingMeaning(s, p, c1, c2, f1, b, f2);
    MeldPrintedFrames(s, p, c1, c2, f1, b, f2);
    MeldPrintedKeepsFirst(s, p, c1, c2, f1, b, f2);
    MeldBuiltRegisters(s, p, c1, c2, f1, b, f2);
    assert s3.cards[c1].faces == s2.cards[c1].faces;
    assert s3.cards[c1].printings[p.active.id] == s2.cards[c1].printings[p.active.id];
  }

  /** createMeld's second card at the end: its printing of the passive front, with its front and the first card's back printed. */
  lemma MeldBuiltSecondPrinting<M, T>(s: State<M, T>, p: MeldParts, c1: Uuid, c2: Uuid, f1: Face<M, T>, b: Face<M, T>, f2: Face<M, T>)
    requires p.active.id != p.passive.id && MeldProposals(s, p, c1, c2, f1, b, f2)
    ensures var t := MeldBuilt(s, p, c1, c2, f1, b, f2);
      && PrintingAssigned(s, t, c2, p.active.setCode, p.passive)
      && PrintedFaceAssigned(s, t, c2, p.passive.id, Front, t.cards[c2].faces[Front], p.passive, None)
      && PrintedFaceAssigned(s, t, c2, p.passive.id, Transformed, t.cards[c1].faces[Transformed], p.back, None)
  {
    MeldPrintedMeaning(s, p, c1, c2, f1, b, f2);
    MeldBuiltRegisters(s, p, c1, c2, f1, b, f2);
  }

  /** createMeld's second card at the end: it shares the first card's back unless it had one, and, when it is another card, its source and passive front. */
  lemma MeldBuiltSecondCard<M, T>(s: State<M, T>, p: MeldParts, c1: Uuid, c2: Uuid, f1: Face<M, T>, b: Face<M, T>, f2: Face<M, T>)
    requires p.active.id != p.passive.id && MeldProposals(s, p, c1, c2, f1, b, f2)
    ensures var t := MeldBuilt(s, p, c1, c2, f1, b, f2);
      && FaceIs(s, c2, Transformed, t.cards[c2].faces, t.cards[c1].faces[Transformed])
      && (c1 != c2 ==> CardAssigned(s, t, c2, p.passive) && FaceAssigned(s, t, c2, Front, p.passive, None))
  {
    var s1 := MeldCards(s, p, c1, c2, f1, b, f2);
    var s3 := MeldPrinted(s, p, c1, c2, f1, b, f2);
    if c1 != c2 {
      MeldCardsSecondApart(s, p, c1, c2, f1, b, f2);
    } else {
      MeldCardsSecondSame(s, p, c1, c2, f1, b, f2);
    }
    MeldFirstPrintingFrames(s, p, c1, c2, f1, b, f2);
    MeldPrintedFrames(s, p, c1, c2, f1, b, f2);
    MeldBuiltRegisters(s, p, c1, c2, f1, b, f2);
    assert s3.cards[c1].faces == s1.cards[c1].faces && s3.cards[c2].faces == s1.cards[c2].faces;
    assert s3.cards[c2].source == s1.cards[c2].source;
  }

  /** createMeld at the end: the three parts are no longer pending, and the active front's set exists. */
  lemma MeldBuiltRest<M, T>(s: State<M, T>, p: MeldParts, c1: Uuid, c2: Uuid, f1: Face<M, T>, b: Face<M, T>, f2: Face<M, T>)
    requires p.active.id != p.passive.id && MeldProposals(s, p, c1, c2, f1, b, f2)
    ensures var t := MeldBuilt(s, p, c1, c2, f1, b, f2);
      && t.jsonSets == s.jsonSets && t.jsonCards == s.jsonCards - {p.back.id, p.active.id, p.passive.id}
      && SetAssigned(s, t, p.active.setCode)
  {
    MeldPrintedRest(s, p, c1, c2, f1, b, f2);
    MeldBuiltRegisters(s, p, c1, c2, f1, b, f2);
  }

  // ---------------------------------------------------------------- each builder as a function of the maps

  /*
   * A builder's result and the maps it leaves, given the faces it proposes:
   * the new face objects it would put on a card lacking them (a proposed
   * face is used only where the card has no face of that kind).
   * `nameUuid` is UUID.nameUUIDFromBytes of an id text.
   */

  /** createSimple proposes its front face built from the record alone. */
  ghost predicate SimpleProposes<M, T>(s: State<M, T>, json: Card, cid: Uuid, ps: seq<Face<M, T>>)
  {
    !BuildsNothing(json) ==> |ps| == 1 && (!HadFace(s, cid, Front) ==> ps[0].cardJson == json && ps[0].faceJson == None)
  }

  /** The faces a two-face builder got from get-or-create are the ones it proposes. */
  lemma TwoFaceProposed<M, T>(s: State<M, T>, nameUuid: string -> Uuid, json: Card, k0: Kind, k1: Kind, g0: Face<M, T>, g1: Face<M, T>)
    requires FacesIdText(json).Ok?
    requires var cid, f := nameUuid(FacesIdText(json).value), json.cardFaces.value;
      && (!HadFace(s, cid, k0) ==> g0.cardJson == json && g0.faceJson == Some(f[0]))
      && (!HadFace(s, cid, k1) ==> g1.cardJson == json && g1.faceJson == Some(f[1]))
    ensures TwoFaceProposes(s, nameUuid, json, k0, k1, [g0, g1])
  {
  }

  /** createSimple(json) for card cid, proposing ps[0] as the front face. */
  function SimpleRun<M, T>(s: State<M, T>, json: Card, cid: Uuid, ps: seq<Face<M, T>>): (Result<()>, State<M, T>)
    requires !BuildsNothing(json) ==> |ps| == 1
  {
    if json.typeLine.None? then (Err(NullPointer), Forgotten(s, json.id))
    else if BuildsNothing(json) then (Ok(()), Forgotten(s, json.id))
    else (Ok(()), SimpleBuilt(s, json, cid, ps[0]))
  }

  /** createSplit, createFlip and createTransform propose faces k0 and k1 built from the record's first and second face records. */
  ghost predicate TwoFaceProposes<M, T>(s: State<M, T>, nameUuid: string -> Uuid, json: Card, k0: Kind, k1: Kind, ps: seq<Face<M, T>>)
  {
    FacesIdText(json).Ok? ==>
      var cid, f := nameUuid(FacesIdText(json).value), json.cardFaces.value;
      && |ps| == 2
      && (!HadFace(s, cid, k0) ==> ps[0].cardJson == json && ps[0].faceJson == Some(f[0]))
      && (!HadFace(s, cid, k1) ==> ps[1].cardJson == json && ps[1].faceJson == Some(f[1]))
  }

  /** createSplit (Left, Right), createFlip (Front, Flipped) or createTransform (Front, Transformed) on json. */
  function TwoFaceRun<M, T>(s: State<M, T>, nameUuid: string -> Uuid, json: Card, k0: Kind, k1: Kind, ps: seq<Face<M, T>>): (Result<()>, State<M, T>)
    requires FacesIdText(json).Ok? ==> |ps| == 2
  {
    var text := FacesIdText(json);
    if text.Err? then (Err(text.error), s)
    else
      var f := json.cardFaces.value;
      (Ok(()), TwoFaceBuilt(s, json, nameUuid(text.value), k0, Some(f[0]), ps[0], k1, Some(f[1]), ps[1]))
  }

  /** The adventure's two parts are found: the id text exists, and so do the main and the adventure face records. */
  predicate AdventureFound(json: Card)
  {
    FacesIdText(json).Ok? && FindFace(json.cardFaces.value, true).Ok? && FindFace(json.cardFaces.value, false).Ok?
  }

  /** createAdventure proposes a Front face from the main part and an Other face from the adventure part. */
  ghost predicate AdventureProposes<M, T>(s: State<M, T>, nameUuid: string -> Uuid, json: Card, ps: seq<Face<M, T>>)
  {
    AdventureFound(json) ==>
      var cid := nameUuid(FacesIdText(json).value);
      && |ps| == 2
      && (!HadFace(s, cid, Front) ==> ps[0].cardJson == json && ps[0].faceJson == Some(FindFace(json.cardFaces.value, true).value))
      && (!HadFace(s, cid, Other) ==> ps[1].cardJson == json && ps[1].faceJson == Some(FindFace(json.cardFaces.value, false).value))
  }

  /** createAdventure(json): the card, the removal and the set come before the search for the two parts. */
  function AdventureRun<M, T>(s: State<M, T>, nameUuid: string -> Uuid, json: Card, ps: seq<Face<M, T>>): (Result<()>, State<M, T>)
    requires AdventureFound(json) ==> |ps| == 2
  {
    var text := FacesIdText(json);
    if text.Err? then (Err(text.error), s)
    else
      var cid := nameUuid(text.value);
      var main := FindFace(json.cardFaces.value, true);
      var adventure := FindFace(json.cardFaces.value, false);
      if main.Err? then (Err(main.error), TwoFaceStart(s, json, cid))
      else if adventure.Err? then (Err(adventure.error), TwoFaceStart(s, json, cid))
      else (Ok(()), TwoFaceBuilt(s, json, cid, Front, Some(main.value), ps[0], Other, Some(adventure.value), ps[1]))
  }

  /** createMeld proposes the active front and the back for the first card, and the passive front for the second. */
  ghost predicate MeldProposes<M, T>(s: State<M, T>, nameUuid: string -> Uuid, json: Card, ps: seq<Face<M, T>>)
  {
    MeldPartsOf(s.jsonCards, json).Ok? ==>
      var p := MeldPartsOf(s.jsonCards, json).value;
      |ps| == 3 && MeldProposals(s, p, nameUuid(MeldIdText(p.active, p.back)), nameUuid(MeldIdText(p.passive, p.back)), ps[0], ps[1], ps[2])
  }

  /** createMeld(json): card c1 is the active front's, card c2 the passive front's, both with ids from the front and the back. */
  function MeldRun<M, T>(s: State<M, T>, nameUuid: string -> Uuid, json: Card, ps: seq<Face<M, T>>): (Result<()>, State<M, T>)
    requires MeldPartsOf(s.jsonCards, json).Ok? ==> |ps| == 3
  {
    var parts := MeldPartsOf(s.jsonCards, json);
    if parts.Err? then (Err(parts.error), s)
    else
      var p := parts.value;
      (Ok(()), MeldBuilt(s, p, nameUuid(MeldIdText(p.active, p.back)), nameUuid(MeldIdText(p.passive, p.back)), ps[0], ps[1], ps[2]))
  }

  /** createMeld with its parts found: what it proposes and what it builds. */
  lemma MeldRunOf<M, T>(s: State<M, T>, t: State<M, T>, nameUuid: string -> Uuid, json: Card, p: MeldParts,
                        c1: Uuid, c2: Uuid, f1: Face<M, T>, b: Face<M, T>, f2: Face<M, T>)
    requires MeldPartsOf(s.jsonCards, json) == Ok(p)
    requires c1 == nameUuid(MeldIdText(p.active, p.back)) && c2 == nameUuid(MeldIdText(p.passive, p.back))
    requires MeldProposals(s, p, c1, c2, f1, b, f2)
    requires t == MeldBuilt(s, p, c1, c2, f1, b, f2)
    ensures MeldProposes(s, nameUuid, json, [f1, b, f2])
    ensures (Ok(()), t) == MeldRun(s, nameUuid, json, [f1, b, f2])
  {
    MeldRunBuilds(s, nameUuid, json, p, [f1, b, f2]);
    MeldProposesFrom(s, nameUuid, json, p, [f1, b, f2]);
  }

  /** With its parts found, createMeld succeeds and builds its cards from the proposals in order. */
  lemma MeldRunBuilds<M, T>(s: State<M, T>, nameUuid: string -> Uuid, json: Card, p: MeldParts, ps: seq<Face<M, T>>)
    requires MeldPartsOf(s.jsonCards, json) == Ok(p) && |ps| == 3
    ensures MeldRun(s, nameUuid, json, ps) ==
      (Ok(()), MeldBuilt(s, p, nameUuid(MeldIdText(p.active, p.back)), nameUuid(MeldIdText(p.passive, p.back)), ps[0], ps[1], ps[2]))
  {
  }

  /** With its parts found, createMeld proposes exactly what MeldProposals describes. */
  lemma MeldProposesFrom<M, T>(s: State<M, T>, nameUuid: string -> Uuid, json: Card, p: MeldParts, ps: seq<Face<M, T>>)
    requires MeldPartsOf(s.jsonCards, json) == Ok(p) && |ps| == 3
    requires MeldProposals(s, p, nameUuid(MeldIdText(p.active, p.back)), nameUuid(MeldIdText(p.passive, p.back)), ps[0], ps[1], ps[2])
    ensures MeldProposes(s, nameUuid, json, ps)
  {
  }

  /** What create() proposes, by the builder its layout selects. */
  ghost predicate CreateProposes<M, T>(s: State<M, T>, nameUuid: string -> Uuid, json: Card, ps: seq<Face<M, T>>)
  {
    match RouteOf(json.layout)
    case Simple =>
      var rec := SimpleRecord(json);
      rec.Ok? ==> SimpleProposes(s, rec.value, nameUuid(SingleIdText(rec.value)), ps)
    case SplitCard => TwoFaceProposes(s, nameUuid, json, Left, Right, ps)
    case FlipCard => TwoFaceProposes(s, nameUuid, json, Front, Flipped, ps)
    case TransformCard => TwoFaceProposes(s, nameUuid, json, Front, Transformed, ps)
    case MeldCard => MeldProposes(s, nameUuid, json, ps)
    case AdventureCard => AdventureProposes(s, nameUuid, json, ps)
    case _ => true
  }

  /** create(json): the builder its layout selects; tokens and emblems are dropped; a null or unknown layout throws. */
  function CreateRun<M, T>(s: State<M, T>, nameUuid: string -> Uuid, json: Card, ps: seq<Face<M, T>>): (Result<()>, State<M, T>)
    requires CreateProposes(s, nameUuid, json, ps)
  {
    match RouteOf(json.layout)
    case NullLayout => (Err(NullPointer), s)
    case Simple =>
      var rec := SimpleRecord(json);
      if rec.Err? then (Err(rec.error), s) else SimpleRun(s, rec.value, nameUuid(SingleIdText(rec.value)), ps)
    case SplitCard => TwoFaceRun(s, nameUuid, json, Left, Right, ps)
    case FlipCard => TwoFaceRun(s, nameUuid, json, Front, Flipped, ps)
    case TransformCard => TwoFaceRun(s, nameUuid, json, Front, Transformed, ps)
    case MeldCard => MeldRun(s, nameUuid, json, ps)
    case AdventureCard => AdventureRun(s, nameUuid, json, ps)
    case NotACard => (Ok(()), Forgotten(s, json.id))
    case Unexpected => (Err(Failure), s)
  }

  // What each builder leaves, in the terms of the registries.

  /**
   * createSimple: the record is no longer pending; a null type line throws
   * after that; a token or card-like insert builds nothing; any other record
   * has its card cid, front face, set and printing with a front printed
   * face, and the printing is registered.
   */
  ghost predicate SimpleOutcome<M, T>(before: State<M, T>, after: State<M, T>, r: Result<()>, json: Card, cid: Uuid)
  {
    && (r.Err? <==> json.typeLine.None?) && (r.Err? ==> r.error == NullPointer)
    && after.jsonSets == before.jsonSets && after.jsonCards == before.jsonCards - {json.id}
    && (BuildsNothing(json) ==> after == Forgotten(before, json.id))
    && (!BuildsNothing(json) ==> PrintingBuilt(before, after, cid, json) && FacePrinted(before, after, cid, json.id, Front, json, None))
  }

  /**
   * The two-face builders: without two face records nothing changes and the
   * lookup throws; otherwise the record is no longer pending, and its card,
   * set and printing exist with faces k0 and k1 from the first and second
   * face records, each printed, and the printing is registered.
   */
  ghost predicate TwoFaceOutcome<M, T>(before: State<M, T>, after: State<M, T>, r: Result<()>, nameUuid: string -> Uuid, json: Card, k0: Kind, k1: Kind)
  {
    var text := FacesIdText(json);
    && (text.Err? ==> r == Err(text.error) && after == before)
    && (text.Ok? ==>
          var cid, f := nameUuid(text.value), json.cardFaces.value;
          && r == Ok(())
          && after.jsonSets == before.jsonSets && after.jsonCards == before.jsonCards - {json.id}
          && PrintingBuilt(before, after, cid, json)
          && FacePrinted(before, after, cid, json.id, k0, json, Some(f[0])) && FacePrinted(before, after, cid, json.id, k1, json, Some(f[1])))
  }

  /**
   * createAdventure: the card and set are made, and the record removed,
   * before the parts are looked for, so a missing part throws with those in
   * place; with both parts found, the main part is the Front face and the
   * adventure the Other face, each printed, and the printing is registered.
   */
  ghost predicate AdventureOutcome<M, T>(before: State<M, T>, after: State<M, T>, r: Result<()>, nameUuid: string -> Uuid, json: Card)
  {
    var text := FacesIdText(json);
    && (text.Err? ==> r == Err(text.error) && after == before)
    && (text.Ok? ==>
          var cid := nameUuid(text.value);
          var main, adventure := FindFace(json.cardFaces.value, true), FindFace(json.cardFaces.value, false);
          && after.jsonSets == before.jsonSets && after.jsonCards == before.jsonCards - {json.id}
          && CardAssigned(before, after, cid, json) && SetAssigned(before, after, json.setCode)
          && (main.Err? ==> r == Err(main.error))
          && (main.Ok? && adventure.Err? ==> r == Err(adventure.error))
          && (main.Ok? && adventure.Ok? ==>
                && r == Ok(())
                && PrintingBuilt(before, after, cid, json)
                && FacePrinted(before, after, cid, json.id, Front, json, Some(main.value))
                && FacePrinted(before, after, cid, json.id, Other, json, Some(adventure.value))))
  }

  /** createMeld, for the first card: the active front's card with its front and back, and its printing with both printed and registered. */
  ghost predicate MeldFirstOutcome<M, T>(before: State<M, T>, after: State<M, T>, p: MeldParts, c1: Uuid)
  {
    && CardAssigned(before, after, c1, p.active)
    && FaceAssigned(before, after, c1, Front, p.active, None) && FaceAssigned(before, after, c1, Transformed, p.back, None)
    && PrintingAssigned(before, after, c1, p.active.setCode, p.active)
    && PrintedFaceAssigned(before, after, c1, p.active.id, Front, after.cards[c1].faces[Front], p.active, None)
    && PrintedFaceAssigned(before, after, c1, p.active.id, Transformed, after.cards[c1].faces[Transformed], p.back, None)
    && Registered(after, p.active.setCode, c1, p.active.id)
  }

  /**
   * createMeld, for the second card: it holds the first card's back face
   * object unless it had a back; a card other than the first is the passive
   * front's, with that front; its printing of the passive front, in the
   * active front's set, prints its front and the shared back, and is registered.
   */
  ghost predicate MeldSecondOutcome<M, T>(before: State<M, T>, after: State<M, T>, p: MeldParts, c1: Uuid, c2: Uuid)
  {
    && c1 in after.cards && Transformed in after.cards[c1].faces && c2 in after.cards && Front in after.cards[c2].faces
    && FaceIs(before, c2, Transformed, after.cards[c2].faces, after.cards[c1].faces[Transformed])
    && (c1 != c2 ==> CardAssigned(before, after, c2, p.passive) && FaceAssigned(before, after, c2, Front, p.passive, None))
    && PrintingAssigned(before, after, c2, p.active.setCode, p.passive)
    && PrintedFaceAssigned(before, after, c2, p.passive.id, Front, after.cards[c2].faces[Front], p.passive, None)
    && PrintedFaceAssigned(before, after, c2, p.passive.id, Transformed, after.cards[c1].faces[Transformed], p.back, None)
    && Registered(after, p.active.setCode, c2, p.passive.id)
  }

  /** createMeld: without its parts nothing changes and it throws; otherwise the parts are no longer pending and both cards are built. */
  ghost predicate MeldOutcome<M, T>(before: State<M, T>, after: State<M, T>, r: Result<()>, nameUuid: string -> Uuid, json: Card)
  {
    var parts := MeldPartsOf(before.jsonCards, json);
    && (parts.Err? ==> r == Err(parts.error) && after == before)
    && (parts.Ok? ==>
          var p := parts.value;
          var c1, c2 := nameUuid(MeldIdText(p.active, p.back)), nameUuid(MeldIdText(p.passive, p.back));
          && r == Ok(())
          && after.jsonSets == before.jsonSets && after.jsonCards == before.jsonCards - {p.back.id, p.active.id, p.passive.id}
          && SetAssigned(before, after, p.active.setCode)
          && MeldFirstOutcome(before, after, p, c1) && MeldSecondOutcome(before, after, p, c1, c2))
  }

  /** create(json): the outcome of the builder its layout selects. */
  ghost predicate CreateOutcome<M, T>(before: State<M, T>, after: State<M, T>, r: Result<()>, nameUuid: string -> Uuid, json: Card)
  {
    match RouteOf(json.layout)
    case NullLayout => r == Err(NullPointer) && after == before
    case Simple =>
      var rec := SimpleRecord(json);
      && (rec.Err? ==> r == Err(rec.error) && after == before)
      && (rec.Ok? ==> SimpleOutcome(before, after, r, rec.value, nameUuid(SingleIdText(rec.value))))
    case SplitCard => TwoFaceOutcome(before, after, r, nameUuid, json, Left, Right)
    case FlipCard => TwoFaceOutcome(before, after, r, nameUuid, json, Front, Flipped)
    case TransformCard => TwoFaceOutcome(before, after, r, nameUuid, json, Front, Transformed)
    case MeldCard => MeldOutcome(before, after, r, nameUuid, json)
    case AdventureCard => AdventureOutcome(before, after, r, nameUuid, json)
    case NotACard => r == Ok(()) && after == Forgotten(before, json.id)
    case Unexpected => r == Err(Failure) && after == before
  }

  // Each builder keeps the invariant and only grows.

  lemma SimpleRunKeeps<M, T>(s: State<M, T>, json: Card, cid: Uuid, ps: seq<Face<M, T>>)
    requires Inv(s) && (!BuildsNothing(json) ==> |ps| == 1)
    ensures var t := SimpleRun(s, json, cid, ps).1; Inv(t) && Grows(s, t)
  {
    if BuildsNothing(json) {
      ForgetStep(s, json.id);
    } else {
      SimpleBuiltKeeps(s, json, cid, ps[0]);
    }
  }

  lemma TwoFaceRunKeeps<M, T>(s: State<M, T>, nameUuid: string -> Uuid, json: Card, k0: Kind, k1: Kind, ps: seq<Face<M, T>>)
    requires Inv(s) && (FacesIdText(json).Ok? ==> |ps| == 2)
    ensures var t := TwoFaceRun(s, nameUuid, json, k0, k1, ps).1; Inv(t) && Grows(s, t)
  {
    if FacesIdText(json).Ok? {
      var f := json.cardFaces.value;
      TwoFaceBuiltKeeps(s, json, nameUuid(FacesIdText(json).value), k0, Some(f[0]), ps[0], k1, Some(f[1]), ps[1]);
    } else {
      GrowsReflexive(s);
    }
  }

  lemma AdventureRunKeeps<M, T>(s: State<M, T>, nameUuid: string -> Uuid, json: Card, ps: seq<Face<M, T>>)
    requires Inv(s) && (AdventureFound(json) ==> |ps| == 2)
    ensures var t := AdventureRun(s, nameUuid, json, ps).1; Inv(t) && Grows(s, t)
  {
    if FacesIdText(json).Err? {
      GrowsReflexive(s);
    } else if AdventureFound(json) {
      var f := json.cardFaces.value;
      TwoFaceBuiltKeeps(s, json, nameUuid(FacesIdText(json).value), Front, Some(FindFace(f, true).value), ps[0],
                        Other, Some(FindFace(f, false).value), ps[1]);
    } else {
      TwoFaceStartKeeps(s, json, nameUuid(FacesIdText(json).value));
    }
  }

  lemma MeldRunKeeps<M, T>(s: State<M, T>, nameUuid: string -> Uuid, json: Card, ps: seq<Face<M, T>>)
    requires Inv(s) && (MeldPartsOf(s.jsonCards, json).Ok? ==> |ps| == 3)
    ensures var t := MeldRun(s, nameUuid, json, ps).1; Inv(t) && Grows(s, t)
  {
    var parts := MeldPartsOf(s.jsonCards, json);
    if parts.Ok? {
      var p := parts.value;
      MeldRunBuilds(s, nameUuid, json, p, ps);
      MeldBuiltKeeps(s, p, nameUuid(MeldIdText(p.active, p.back)), nameUuid(MeldIdText(p.passive, p.back)), ps[0], ps[1], ps[2]);
    } else {
      GrowsReflexive(s);
    }
  }

  /** create() keeps the registries consistent and only adds to them, whatever it throws. */
  lemma CreateRunKeeps<M, T>(s: State<M, T>, nameUuid: string -> Uuid, json: Card, ps: seq<Face<M, T>>)
    requires Inv(s) && CreateProposes(s, nameUuid, json, ps)
    ensures var t := CreateRun(s, nameUuid, json, ps).1; Inv(t) && Grows(s, t)
  {
    match RouteOf(json.layout)
    case NullLayout => GrowsReflexive(s);
    case Simple =>
      var rec := SimpleRecord(json);
      if rec.Ok? {
        SimpleRunKeeps(s, rec.value, nameUuid(SingleIdText(rec.value)), ps);
      } else {
        GrowsReflexive(s);
      }
    case SplitCard => TwoFaceRunKeeps(s, nameUuid, json, Left, Right, ps);
    case FlipCard => TwoFaceRunKeeps(s, nameUuid, json, Front, Flipped, ps);
    case TransformCard => TwoFaceRunKeeps(s, nameUuid, json, Front, Transformed, ps);
    case MeldCard => MeldRunKeeps(s, nameUuid, json, ps);
    case AdventureCard => AdventureRunKeeps(s, nameUuid, json, ps);
    case NotACard => ForgetStep(s, json.id);
    case Unexpected => GrowsReflexive(s);
  }

  // What each builder leaves.

  lemma SimpleRunOutcome<M, T>(s: State<M, T>, json: Card, cid: Uuid, ps: seq<Face<M, T>>)
    requires SimpleProposes(s, json, cid, ps)
    ensures var (r, t) := SimpleRun(s, json, cid, ps); SimpleOutcome(s, t, r, json, cid)
  {
    if !BuildsNothing(json) {
      SimpleBuiltMeaning(s, json, cid, ps[0]);
    }
  }

  lemma TwoFaceRunOutcome<M, T>(s: State<M, T>, nameUuid: string -> Uuid, json: Card, k0: Kind, k1: Kind, ps: seq<Face<M, T>>)
    requires k0 != k1 && TwoFaceProposes(s, nameUuid, json, k0, k1, ps)
    ensures var (r, t) := TwoFaceRun(s, nameUuid, json, k0, k1, ps); TwoFaceOutcome(s, t, r, nameUuid, json, k0, k1)
  {
    if FacesIdText(json).Ok? {
      var f := json.cardFaces.value;
      TwoFaceBuiltMeaning(s, json, nameUuid(FacesIdText(json).value), k0, Some(f[0]), ps[0], k1, Some(f[1]), ps[1]);
    }
  }

  lemma AdventureRunOutcome<M, T>(s: State<M, T>, nameUuid: string -> Uuid, json: Card, ps: seq<Face<M, T>>)
    requires AdventureProposes(s, nameUuid, json, ps)
    ensures var (r, t) := AdventureRun(s, nameUuid, json, ps); AdventureOutcome(s, t, r, nameUuid, json)
  {
    if FacesIdText(json).Ok? {
      var cid := nameUuid(FacesIdText(json).value);
      var f := json.cardFaces.value;
      if AdventureFound(json) {
        TwoFaceBuiltMeaning(s, json, cid, Front, Some(FindFace(f, true).value), ps[0], Other, Some(FindFace(f, false).value), ps[1]);
      } else {
        TwoFaceStartMeaning(s, json, cid);
      }
    }
  }

  lemma MeldRunOutcome<M, T>(s: State<M, T>, nameUuid: string -> Uuid, json: Card, ps: seq<Face<M, T>>)
    requires KeyedById(s.jsonCards) && MeldProposes(s, nameUuid, json, ps)
    ensures var (r, t) := MeldRun(s, nameUuid, json, ps); MeldOutcome(s, t, r, nameUuid, json)
  {
    var parts := MeldPartsOf(s.jsonCards, json);
    if parts.Ok? {
      var p := parts.value;
      var c1, c2 := nameUuid(MeldIdText(p.active, p.back)), nameUuid(MeldIdText(p.passive, p.back));
      MeldPartsMeaning(s.jsonCards, json);
      MeldBuiltRest(s, p, c1, c2, ps[0], ps[1], ps[2]);
      MeldBuiltRegisters(s, p, c1, c2, ps[0], ps[1], ps[2]);
      MeldBuiltFirstCard(s, p, c1, c2, ps[0], ps[1], ps[2]);
      MeldBuiltFirstPrinting(s, p, c1, c2, ps[0], ps[1], ps[2]);
      MeldBuiltSecondCard(s, p, c1, c2, ps[0], ps[1], ps[2]);
      MeldBuiltSecondPrinting(s, p, c1, c2, ps[0], ps[1], ps[2]);
    }
  }

  /** What create() leaves, by the builder its layout selects. */
  lemma CreateRunOutcome<M, T>(s: State<M, T>, nameUuid: string -> Uuid, json: Card, ps: seq<Face<M, T>>)
    requires Inv(s) && CreateProposes(s, nameUuid, json, ps)
    ensures var (r, t) := CreateRun(s, nameUuid, json, ps); CreateOutcome(s, t, r, nameUuid, json)
  {
    match RouteOf(json.layout)
    case Simple =>
      var rec := SimpleRecord(json);
      if rec.Ok? {
        SimpleRunOutcome(s, rec.value, nameUuid(SingleIdText(rec.value)), ps);
      }
    case SplitCard => TwoFaceRunOutcome(s, nameUuid, json, Left, Right, ps);
    case FlipCard => TwoFaceRunOutcome(s, nameUuid, json, Front, Flipped, ps);
    case TransformCard => TwoFaceRunOutcome(s, nameUuid, json, Front, Transformed, ps);
    case MeldCard => MeldRunOutcome(s, nameUuid, json, ps);
    case AdventureCard => AdventureRunOutcome(s, nameUuid, json, ps);
    case _ =>
  }

  /** The pending records lose entries and gain none, and a successful builder removes at least one. */
  ghost predicate Shrunk<M, T>(before: State<M, T>, after: State<M, T>, r: Result<()>)
  {
    after.jsonCards.Keys <= before.jsonCards.Keys && (r.Ok? ==> |after.jsonCards| < |before.jsonCards|)
  }

  lemma SimpleRunShrinks<M, T>(s: State<M, T>, json: Card, cid: Uuid, ps: seq<Face<M, T>>)
    requires json.id in s.jsonCards && SimpleProposes(s, json, cid, ps)
    ensures var (r, t) := SimpleRun(s, json, cid, ps); Shrunk(s, t, r) && json.id !in t.jsonCards
  {
    SimpleRunOutcome(s, json, cid, ps);
    RemoveShrinks(s.jsonCards, json.id);
  }

  lemma TwoFaceRunShrinks<M, T>(s: State<M, T>, nameUuid: string -> Uuid, json: Card, k0: Kind, k1: Kind, ps: seq<Face<M, T>>)
    requires k0 != k1 && json.id in s.jsonCards && TwoFaceProposes(s, nameUuid, json, k0, k1, ps)
    ensures var (r, t) := TwoFaceRun(s, nameUuid, json, k0, k1, ps); Shrunk(s, t, r) && (r.Ok? ==> json.id !in t.jsonCards)
  {
    TwoFaceRunOutcome(s, nameUuid, json, k0, k1, ps);
    RemoveShrinks(s.jsonCards, json.id);
  }

  lemma AdventureRunShrinks<M, T>(s: State<M, T>, nameUuid: string -> Uuid, json: Card, ps: seq<Face<M, T>>)
    requires json.id in s.jsonCards && AdventureProposes(s, nameUuid, json, ps)
    ensures var (r, t) := AdventureRun(s, nameUuid, json, ps); Shrunk(s, t, r) && (r.Ok? ==> json.id !in t.jsonCards)
  {
    AdventureRunOutcome(s, nameUuid, json, ps);
    RemoveShrinks(s.jsonCards, json.id);
  }

  lemma MeldRunShrinks<M, T>(s: State<M, T>, nameUuid: string -> Uuid, json: Card, ps: seq<Face<M, T>>)
    requires KeyedById(s.jsonCards) && MeldProposes(s, nameUuid, json, ps)
    ensures var (r, t) := MeldRun(s, nameUuid, json, ps); Shrunk(s, t, r)
  {
    MeldRunOutcome(s, nameUuid, json, ps);
    if MeldPartsOf(s.jsonCards, json).Ok? {
      MeldRemovalShrinks(s.jsonCards, json);
    }
  }

  /**
   * create() on a pending record: whenever it returns, the pending records
   * shrink, and on every path but the meld the record itself is no longer
   * pending (a meld removes its three parts, whether or not the record is one).
   */
  lemma CreateRunShrinks<M, T>(s: State<M, T>, nameUuid: string -> Uuid, json: Card, ps: seq<Face<M, T>>)
    requires Inv(s) && json.id in s.jsonCards && CreateProposes(s, nameUuid, json, ps)
    ensures var (r, t) := CreateRun(s, nameUuid, json, ps);
      && Shrunk(s, t, r)
      && (r.Ok? && RouteOf(json.layout) != MeldCard ==> json.id !in t.jsonCards)
  {
    match RouteOf(json.layout)
    case Simple =>
      var rec := SimpleRecord(json);
      if rec.Ok? {
        NormalRecordMeaning(json);
        assert rec.value.id == json.id;
        SimpleRunShrinks(s, rec.value, nameUuid(SingleIdText(rec.value)), ps);
      }
    case SplitCard => TwoFaceRunShrinks(s, nameUuid, json, Left, Right, ps);
    case FlipCard => TwoFaceRunShrinks(s, nameUuid, json, Front, Flipped, ps);
    case TransformCard => TwoFaceRunShrinks(s, nameUuid, json, Front, Transformed, ps);
    case AdventureCard => AdventureRunShrinks(s, nameUuid, json, ps);
    case MeldCard => MeldRunShrinks(s, nameUuid, json, ps);
    case NotACard => RemoveShrinks(s.jsonCards, json.id);
    case _ =>
  }

  /** The meld's three parts are distinct pending records, so removing them takes three entries away. */
  lemma MeldRemovalShrinks(jsonCards: map<Uuid, Card>, json: Card)
    requires KeyedById(jsonCards) && MeldPartsOf(jsonCards, json).Ok?
    ensures var p := MeldPartsOf(jsonCards, json).value;
      |jsonCards - {p.back.id, p.active.id, p.passive.id}| < |jsonCards|
  {
    var p := MeldPartsOf(jsonCards, json).value;
    MeldPartsMeaning(jsonCards, json);
    RemoveShrinks(jsonCards, p.back.id);
    RemoveShrinks(jsonCards - {p.back.id}, p.active.id);
    RemoveShrinks(jsonCards - {p.back.id} - {p.active.id}, p.passive.id);
    assert jsonCards - {p.back.id, p.active.id, p.passive.id} == jsonCards - {p.back.id} - {p.active.id} - {p.passive.id};
  }

  // ---------------------------------------------------------------- what create() takes off the pending map

  /**
   * A record create() may take off the pending map without registering a
   * printing of it: a token or emblem, one createSimple builds nothing for,
   * or a meld back, which only its fronts' printings show.
   */
  predicate Unprinted(c: Card)
  {
    || RouteOf(c.layout) == NotACard
    || (RouteOf(c.layout) == Simple && SimpleRecord(c).Ok? && BuildsNothing(SimpleRecord(c).value))
    || IsMeldBack(c)
  }

  /**
   * A record create() may throw on: a null or unexpected layout, a Normal
   * record whose special case throws, a null type line, a two-face or
   * adventure record without its face records or parts, and any meld, since
   * its parts are looked up among the records still pending.
   */
  predicate MayFail(c: Card)
  {
    match RouteOf(c.layout)
    case NullLayout => true
    case Unexpected => true
    case Simple => SimpleRecord(c).Err? || SimpleRecord(c).value.typeLine.None?
    case SplitCard => FacesIdText(c).Err?
    case FlipCard => FacesIdText(c).Err?
    case TransformCard => FacesIdText(c).Err?
    case AdventureCard => !AdventureFound(c)
    case MeldCard => true
    case NotACard => false
  }

  /**
   * Every printing registered since `before` is that of a record pending
   * then, and every record taken off the pending map has its printing
   * registered, is Unprinted, or is the record json create() threw on, which
   * then MayFail.
   */
  ghost predicate Accounted<M, T>(before: State<M, T>, after: State<M, T>, r: Result<()>, json: Card)
  {
    Takes(before, after, r, json) && (r.Err? ==> MayFail(json))
  }

  /** Accounted, but for which records may throw. */
  ghost predicate Takes<M, T>(before: State<M, T>, after: State<M, T>, r: Result<()>, json: Card)
  {
    && after.printings.Keys <= before.printings.Keys + before.jsonCards.Keys
    && (forall id :: id in before.jsonCards && id !in after.jsonCards ==>
          id in after.printings || Unprinted(before.jsonCards[id]) || (r.Err? && id == json.id))
  }

  /** createSimple past its checks registers json's printing and takes json, and only json, off the pending map. */
  lemma SimpleBuiltRegisters<M, T>(s: State<M, T>, json: Card, cid: Uuid, f: Face<M, T>)
    ensures var t := SimpleBuilt(s, json, cid, f);
      t.printings == s.printings[json.id := PrintingRef(cid, json.id)] && t.jsonCards == s.jsonCards - {json.id}
  {
    var s1 := SimpleStart(s, json, cid, f);
    assert s1.printings == s.printings && s1.jsonCards == s.jsonCards - {json.id};
  }

  /** A two-face builder past its checks registers json's printing and takes json, and only json, off the pending map. */
  lemma TwoFaceBuiltRegisters<M, T>(s: State<M, T>, json: Card, cid: Uuid, k0: Kind, fj0: Option<ApiCard.Face>, p0: Face<M, T>,
                                    k1: Kind, fj1: Option<ApiCard.Face>, p1: Face<M, T>)
    ensures var t := TwoFaceBuilt(s, json, cid, k0, fj0, p0, k1, fj1, p1);
      t.printings == s.printings[json.id := PrintingRef(cid, json.id)] && t.jsonCards == s.jsonCards - {json.id}
  {
    var s0 := TwoFaceStart(s, json, cid);
    assert s0.printings == s.printings && s0.jsonCards == s.jsonCards - {json.id};
  }

  /** createMeld past its search registers the two fronts' printings and takes the three parts off the pending map. */
  lemma MeldBuiltRegisters2<M, T>(s: State<M, T>, p: MeldParts, c1: Uuid, c2: Uuid, f1: Face<M, T>, b: Face<M, T>, f2: Face<M, T>)
    ensures var t := MeldBuilt(s, p, c1, c2, f1, b, f2);
      && t.printings == s.printings[p.active.id := PrintingRef(c1, p.active.id)][p.passive.id := PrintingRef(c2, p.passive.id)]
      && t.jsonCards == s.jsonCards - {p.back.id, p.active.id, p.passive.id}
  {
    var s1 := MeldCards(s, p, c1, c2, f1, b, f2);
    assert s1.printings == s.printings && s1.jsonCards == s.jsonCards - {p.back.id, p.active.id, p.passive.id} by {
      var s0 := MeldFirstCard(s, p, c1, f1, b);
      assert s0.printings == s.printings && s0.jsonCards == s.jsonCards - {p.back.id, p.active.id, p.passive.id};
    }
    var s2 := MeldFirstPrinting(s, p, c1, c2, f1, b, f2);
    assert s2.printings == s.printings && s2.jsonCards == s1.jsonCards;
    var s3 := MeldPrinted(s, p, c1, c2, f1, b, f2);
    assert s3.printings == s.printings && s3.jsonCards == s1.jsonCards;
  }

  lemma SimpleRunAccounts<M, T>(s: State<M, T>, json: Card, cid: Uuid, ps: seq<Face<M, T>>)
    requires json.id in s.jsonCards && s.jsonCards[json.id].id == json.id
    requires !BuildsNothing(json) ==> |ps| == 1
    ensures var (r, t) := SimpleRun(s, json, cid, ps);
      && t.printings.Keys <= s.printings.Keys + s.jsonCards.Keys
      && (forall id :: id in s.jsonCards && id !in t.jsonCards ==>
            id == json.id && (id in t.printings || BuildsNothing(json)))
      && (r.Err? ==> json.typeLine.None?)
  {
    if !BuildsNothing(json) {
      SimpleBuiltRegisters(s, json, cid, ps[0]);
    }
  }

  lemma AdventureRunAccounts<M, T>(s: State<M, T>, nameUuid: string -> Uuid, json: Card, ps: seq<Face<M, T>>)
    requires json.id in s.jsonCards
    requires AdventureFound(json) ==> |ps| == 2
    ensures var (r, t) := AdventureRun(s, nameUuid, json, ps); Takes(s, t, r, json) && (r.Err? ==> !AdventureFound(json))
  {
    if AdventureFound(json) {
      var f := json.cardFaces.value;
      TwoFaceBuiltRegisters(s, json, nameUuid(FacesIdText(json).value), Front, Some(FindFace(f, true).value), ps[0],
                            Other, Some(FindFace(f, false).value), ps[1]);
    }
  }

  lemma TwoFaceRunAccounts<M, T>(s: State<M, T>, nameUuid: string -> Uuid, json: Card, k0: Kind, k1: Kind, ps: seq<Face<M, T>>)
    requires json.id in s.jsonCards
    requires FacesIdText(json).Ok? ==> |ps| == 2
    ensures var (r, t) := TwoFaceRun(s, nameUuid, json, k0, k1, ps);
      && Takes(s, t, r, json)
      && (r.Err? ==> FacesIdText(json).Err?)
  {
    if FacesIdText(json).Ok? {
      var f := json.cardFaces.value;
      TwoFaceBuiltRegisters(s, json, nameUuid(FacesIdText(json).value), k0, Some(f[0]), ps[0], k1, Some(f[1]), ps[1]);
    }
  }

  /** A state that registers the two fronts' printings and takes the three parts off the pending map takes only what it shows or a meld back. */
  lemma MeldTakes<M, T>(s: State<M, T>, p: MeldParts, c1: Uuid, c2: Uuid, t: State<M, T>)
    requires IsMeldBack(p.back) && p.back.id in s.jsonCards && s.jsonCards[p.back.id] == p.back
    requires p.active.id in s.jsonCards && p.passive.id in s.jsonCards
    requires t.printings == s.printings[p.active.id := PrintingRef(c1, p.active.id)][p.passive.id := PrintingRef(c2, p.passive.id)]
    requires t.jsonCards == s.jsonCards - {p.back.id, p.active.id, p.passive.id}
    ensures t.printings.Keys <= s.printings.Keys + s.jsonCards.Keys
    ensures forall id :: id in s.jsonCards && id !in t.jsonCards ==> id in t.printings || IsMeldBack(s.jsonCards[id])
  {
  }

  lemma MeldRunAccounts<M, T>(s: State<M, T>, nameUuid: string -> Uuid, json: Card, ps: seq<Face<M, T>>)
    requires KeyedById(s.jsonCards)
    requires MeldPartsOf(s.jsonCards, json).Ok? ==> |ps| == 3
    ensures var (r, t) := MeldRun(s, nameUuid, json, ps);
      && t.printings.Keys <= s.printings.Keys + s.jsonCards.Keys
      && (forall id :: id in s.jsonCards && id !in t.jsonCards ==> id in t.printings || IsMeldBack(s.jsonCards[id]))
  {
    var parts := MeldPartsOf(s.jsonCards, json);
    if parts.Ok? {
      var p := parts.value;
      MeldPartsMeaning(s.jsonCards, json);
      var c1, c2 := nameUuid(MeldIdText(p.active, p.back)), nameUuid(MeldIdText(p.passive, p.back));
      var t := MeldBuilt(s, p, c1, c2, ps[0], ps[1], ps[2]);
      assert MeldRun(s, nameUuid, json, ps).1 == t;
      MeldBuiltRegisters2(s, p, c1, c2, ps[0], ps[1], ps[2]);
      MeldTakes(s, p, c1, c2, t);
    }
  }

  /**
   * create() on a pending record accounts for every record it takes off the
   * pending map, and registers only printings of records that were pending.
   */
  lemma CreateRunAccounts<M, T>(s: State<M, T>, nameUuid: string -> Uuid, json: Card, ps: seq<Face<M, T>>)
    requires Inv(s) && json.id in s.jsonCards && s.jsonCards[json.id] == json && CreateProposes(s, nameUuid, json, ps)
    ensures var (r, t) := CreateRun(s, nameUuid, json, ps); Accounted(s, t, r, json)
  {
    match RouteOf(json.layout)
    case Simple =>
      var rec := SimpleRecord(json);
      if rec.Ok? {
        NormalRecordMeaning(json);
        assert rec.value.id == json.id;
        SimpleRunAccounts(s, rec.value, nameUuid(SingleIdText(rec.value)), ps);
      }
    case SplitCard => TwoFaceRunAccounts(s, nameUuid, json, Left, Right, ps);
    case FlipCard => TwoFaceRunAccounts(s, nameUuid, json, Front, Flipped, ps);
    case TransformCard => TwoFaceRunAccounts(s, nameUuid, json, Front, Transformed, ps);
    case MeldCard => MeldRunAccounts(s, nameUuid, json, ps);
    case AdventureCard => AdventureRunAccounts(s, nameUuid, json, ps);
    case _ =>
  }

  // ---------------------------------------------------------------- the factory's maps, updated in place

  /**
   * The maps create() works on: the set records and the pending card records
   * it reads (and removes from), and the set, card and printing registries
   * it fills.  `nameUuid` is UUID.nameUUIDFromBytes of an id text's UTF-8
   * bytes; `lib` is the library the faces parse mana costs and type lines with.
   */
  class Registry<M, T> {
    const lib: ScryfallFaces.Library<M, T>
    const nameUuid: string -> Uuid
    var jsonSets: map<string, ApiCard.Set>
    var jsonCards: map<Uuid, Card>
    var sets: map<string, SetNode>
    var cards: map<Uuid, CardNode<M, T>>
    var printings: map<Uuid, PrintingRef>

    function Snap(): State<M, T>
      reads this
    {
      State(jsonSets, jsonCards, sets, cards, printings)
    }

    ghost predicate Valid()
      reads this
    {
      Inv(Snap())
    }

    /** Empty registries over the given set records and pending card records. */
    constructor(lib: ScryfallFaces.Library<M, T>, nameUuid: string -> Uuid, jsonSets: map<string, ApiCard.Set>, jsonCards: map<Uuid, Card>)
      requires KeyedById(jsonCards)
      ensures this.lib == lib && this.nameUuid == nameUuid
      ensures Snap() == State(jsonSets, jsonCards, map[], map[], map[])
      ensures Valid()
    {
      this.lib := lib;
      this.nameUuid := nameUuid;
      this.jsonSets := jsonSets;
      this.jsonCards := jsonCards;
      sets := map[];
      cards := map[];
      printings := map[];
    }

    // ------------------------------------------------------------ get-or-create steps

    /** jsonCards.values().remove(c), for the pending record c under id. */
    method Forget(id: Uuid)
      modifies this
      ensures Snap() == Forgotten(old(Snap()), id)
    {
      jsonCards := jsonCards - {id};
    }

    /** cards.computeIfAbsent(cid, c -> new ScryfallCard(source)) */
    method CardFor(cid: Uuid, source: Card)
      modifies this
      ensures Snap() == WithCard(old(Snap()), cid, source)
    {
      if cid !in cards {
        cards := cards[cid := CardNode(source, map[], map[])];
      }
    }

    /** card.faces.computeIfAbsent(kind, k -> new ScryfallFace(cardJson, faceJson)): the face there, else a new one. */
    method FaceFor(cid: Uuid, kind: Kind, cardJson: Card, faceJson: Option<ApiCard.Face>) returns (f: Face<M, T>)
      requires cid in cards
      modifies this
      ensures Snap() == WithFace(old(Snap()), cid, kind, f) && f == cards[cid].faces[kind]
      ensures kind in old(cards[cid].faces) ==> f == old(cards[cid].faces[kind])
      ensures kind !in old(cards[cid].faces) ==> fresh(f) && f.cardJson == cardJson && f.faceJson == faceJson && f.lib == lib
    {
      var node := cards[cid];
      if kind in node.faces {
        f := node.faces[kind];
      } else {
        f := new ScryfallFaces.ScryfallFace(cardJson, faceJson, lib);
        cards := cards[cid := node.(faces := node.faces[kind := f])];
      }
    }

    /** card.faces.computeIfAbsent(kind, k -> f): the face there, else the given face f. */
    method ShareFace(cid: Uuid, kind: Kind, f: Face<M, T>)
      requires cid in cards
      modifies this
      ensures Snap() == WithFace(old(Snap()), cid, kind, f)
    {
      var node := cards[cid];
      if kind !in node.faces {
        cards := cards[cid := node.(faces := node.faces[kind := f])];
      }
    }

    /** sets.computeIfAbsent(code, s -> new ScryfallSet(jsonSets.get(s))) */
    method SetFor(code: string)
      modifies this
      ensures Snap() == WithSet(old(Snap()), code)
    {
      if code !in sets {
        sets := sets[code := ScryfallSets.New(SetRecord(jsonSets, code))];
      }
    }

    /** card.printings.computeIfAbsent(json.id, id -> new ScryfallPrinting(set, card, json)) */
    method PrintingFor(cid: Uuid, code: string, json: Card)
      requires cid in cards
      modifies this
      ensures Snap() == WithPrinting(old(Snap()), cid, code, json)
    {
      var node := cards[cid];
      if json.id !in node.printings {
        cards := cards[cid := node.(printings := node.printings[json.id := ScryfallPrintings.New(code, cid, json)])];
      }
    }

    /** print.faces.computeIfAbsent(kind, k -> new ScryfallPrintedFace(print, face, cardJson, faceJson)) */
    method PrintedFaceFor(cid: Uuid, id: Uuid, kind: Kind, face: Face<M, T>, cardJson: Card, faceJson: Option<ApiCard.Face>)
      requires cid in cards && id in cards[cid].printings
      modifies this
      ensures Snap() == WithPrintedFace(old(Snap()), cid, id, kind, face, cardJson, faceJson)
    {
      var node := cards[cid];
      var p := node.printings[id];
      if kind !in p.faces {
        var pf := PrintedFaces.PrintedFace(PrintingRef(cid, id), face, cardJson, faceJson);
        cards := cards[cid := node.(printings := node.printings[id := p.(faces := p.faces[kind := pf])])];
      }
    }

    /** set.printings.put(print.id(), print) */
    method PutInSet(code: string, r: PrintingRef)
      requires code in sets
      modifies this
      ensures Snap() == InSet(old(Snap()), code, r)
    {
      sets := sets[code := ScryfallSets.AddPrinting(sets[code], r.id, r)];
    }

    /** printings.put(print.id(), print) */
    method PutListed(r: PrintingRef)
      modifies this
      ensures Snap() == Listed(old(Snap()), r)
    {
      printings := printings[r.id := r];
    }

    // ------------------------------------------------------------ the builders' stages

    /** The two-face builders' first steps: card cid, the removal of json, json's set. */
    method StartTwoFace(json: Card, cid: Uuid)
      modifies this
      ensures Snap() == TwoFaceStart(old(Snap()), json, cid)
    {
      CardFor(cid, json);
      Forget(json.id);
      SetFor(json.setCode);
    }

    /** Faces k0 and k1 of card cid, each the one it has or a new one built from cardJson and faceJson. */
    method TwoFacesFor(cid: Uuid, k0: Kind, cj0: Card, fj0: Option<ApiCard.Face>, k1: Kind, cj1: Card, fj1: Option<ApiCard.Face>)
      returns (g0: Face<M, T>, g1: Face<M, T>)
      requires cid in cards && k0 != k1
      modifies this
      ensures Snap() == WithTwoFaces(old(Snap()), cid, k0, g0, k1, g1)
      ensures g0 == cards[cid].faces[k0] && g1 == cards[cid].faces[k1]
      ensures !HadFace(old(Snap()), cid, k0) ==> g0.cardJson == cj0 && g0.faceJson == fj0
      ensures !HadFace(old(Snap()), cid, k1) ==> g1.cardJson == cj1 && g1.faceJson == fj1
    {
      g0 := FaceFor(cid, k0, cj0, fj0);
      g1 := FaceFor(cid, k1, cj1, fj1);
    }

    /** json's printing of card cid with printed faces of kinds k0 and k1 showing g0 and g1. */
    method PrintTwo(cid: Uuid, code: string, json: Card, k0: Kind, g0: Face<M, T>, cj0: Card, fj0: Option<ApiCard.Face>,
                    k1: Kind, g1: Face<M, T>, cj1: Card, fj1: Option<ApiCard.Face>)
      requires cid in cards
      modifies this
      ensures Snap() == PrintedTwo(old(Snap()), cid, code, json, k0, g0, cj0, fj0, k1, g1, cj1, fj1)
    {
      PrintingFor(cid, code, json);
      PrintedFaceFor(cid, json.id, k0, g0, cj0, fj0);
      PrintedFaceFor(cid, json.id, k1, g1, cj1, fj1);
    }

    /** set.printings.put(print.id(), print), then printings.put(print.id(), print). */
    method Enroll(code: string, r: PrintingRef)
      requires code in sets
      modifies this
      ensures Snap() == Enrolled(old(Snap()), code, r)
    {
      PutInSet(code, r);
      PutListed(r);
    }

    /** createMeld's second card: card c2 with the passive front (the one it has, or a new one) and the shared back b unless it has one. */
    method SecondMeldCard(p: MeldParts, c2: Uuid, b: Face<M, T>) returns (f2: Face<M, T>)
      modifies this
      ensures Snap() == WithTwoFaces(WithCard(old(Snap()), c2, p.passive), c2, Front, f2, Transformed, b)
      ensures f2 == cards[c2].faces[Front]
      ensures !HadFace(old(Snap()), c2, Front) ==> f2.cardJson == p.passive && f2.faceJson == None
    {
      CardFor(c2, p.passive);
      f2 := FaceFor(c2, Front, p.passive, None);
      ShareFace(c2, Transformed, b);
    }

    /** Two printings put into set `code`, then into the printing registry. */
    method EnrollTwo(code: string, r1: PrintingRef, r2: PrintingRef)
      requires code in sets
      modifies this
      ensures Snap() == EnrolledTwo(old(Snap()), code, r1, r2)
    {
      PutInSet(code, r1);
      PutInSet(code, r2);
      PutListed(r1);
      PutListed(r2);
    }

    /**
     * createMeld's removals and cards: the parts are no longer pending;
     * card c1 gets the active front and the back, card c2 the passive front
     * and the same back object; then the active front's set.
     */
    method MeldCardsFor(p: MeldParts, c1: Uuid, c2: Uuid) returns (f1: Face<M, T>, b: Face<M, T>, f2: Face<M, T>)
      modifies this
      ensures Snap() == MeldCards(old(Snap()), p, c1, c2, f1, b, f2)
      ensures MeldProposals(old(Snap()), p, c1, c2, f1, b, f2)
      ensures f1 == cards[c1].faces[Front] && b == cards[c1].faces[Transformed] && f2 == cards[c2].faces[Front]
    {
      ghost var s0 := Snap();
      Forget(p.back.id);
      Forget(p.active.id);
      Forget(p.passive.id);
      CardFor(c1, p.active);
      ghost var a := Snap();
      assert a == WithCard(MeldRemoved(s0, p), c1, p.active);
      f1, b := TwoFacesFor(c1, Front, p.active, None, Transformed, p.back, None);
      ghost var s1 := Snap();
      assert s1 == MeldFirstCard(s0, p, c1, f1, b);
      MeldStartFaces(s0, p, c1, c2, f1, b);
      f2 := SecondMeldCard(p, c2, b);
      SetFor(p.active.setCode);
    }

    /** createMeld's two printings, each with its front and the shared back printed. */
    method PrintMeld(ghost s0: State<M, T>, p: MeldParts, c1: Uuid, c2: Uuid, f1: Face<M, T>, b: Face<M, T>, f2: Face<M, T>)
      requires Snap() == MeldCards(s0, p, c1, c2, f1, b, f2)
      requires f1 == cards[c1].faces[Front] && b == cards[c1].faces[Transformed] && f2 == cards[c2].faces[Front]
      modifies this
      ensures Snap() == MeldPrinted(s0, p, c1, c2, f1, b, f2)
    {
      var code := p.active.setCode;
      PrintTwo(c1, code, p.active, Front, f1, p.active, None, Transformed, b, p.back, None);
      assert Snap() == MeldFirstPrinting(s0, p, c1, c2, f1, b, f2);
      PrintTwo(c2, code, p.passive, Front, f2, p.passive, None, Transformed, b, p.back, None);
    }

    /** createMeld past its search for the parts: its cards, printings and registrations. */
    method BuildMeld(p: MeldParts, c1: Uuid, c2: Uuid) returns (f1: Face<M, T>, b: Face<M, T>, f2: Face<M, T>)
      modifies this
      ensures Snap() == MeldBuilt(old(Snap()), p, c1, c2, f1, b, f2)
      ensures MeldProposals(old(Snap()), p, c1, c2, f1, b, f2)
    {
      ghost var s0 := Snap();
      f1, b, f2 := MeldCardsFor(p, c1, c2);
      PrintMeld(s0, p, c1, c2, f1, b, f2);
      EnrollTwo(p.active.setCode, PrintingRef(c1, p.active.id), PrintingRef(c2, p.passive.id));
    }

    // ------------------------------------------------------------ builders

    /** createSimple(jsonSets, jsonCards, json, sets, cards, printings); `ps` is the front face it proposed. */
    method CreateSimple(json: Card) returns (r: Result<()>, ghost ps: seq<Face<M, T>>)
      requires json.layout.Some? && SimpleLayout(json.layout.value)
      modifies this
      ensures SimpleProposes(old(Snap()), json, nameUuid(SingleIdText(json)), ps)
      ensures (r, Snap()) == SimpleRun(old(Snap()), json, nameUuid(SingleIdText(json)), ps)
    {
      ghost var s0 := Snap();
      Forget(json.id);
      if json.typeLine.None? {
        return Err(NullPointer), [];
      }
      if StartsWith(json.typeLine.value, "Token") || StartsWith(json.typeLine.value, "Card") {
        return Ok(()), [];
      }
      var text := IdText(jsonCards, json);
      IdTextMeaning(jsonCards, json);
      var cid := nameUuid(text.value);
      CardFor(cid, json);
      var f := FaceFor(cid, Front, json, None);
      SetFor(json.setCode);
      ghost var s1 := Snap();
      assert s1 == SimpleStart(s0, json, cid, f);
      PrintingFor(cid, json.setCode, json);
      PrintedFaceFor(cid, json.id, Front, f, json, None);
      assert Snap() == PrintedOne(s1, cid, json.setCode, json, Front, s1.cards[cid].faces[Front], json, None);
      Enroll(json.setCode, PrintingRef(cid, json.id));
      r, ps := Ok(()), [f];
    }

    /** createSplit(jsonSets, jsonCards, json, sets, cards, printings): faces Left and Right; `ps` are the faces it proposed. */
    method CreateSplit(json: Card) returns (r: Result<()>, ghost ps: seq<Face<M, T>>)
      requires json.layout.Some? && var l := json.layout.value; l.Split?
      modifies this
      ensures TwoFaceProposes(old(Snap()), nameUuid, json, Left, Right, ps)
      ensures (r, Snap()) == TwoFaceRun(old(Snap()), nameUuid, json, Left, Right, ps)
    {
      ghost var s0 := Snap();
      var text := IdText(jsonCards, json);
      assert text == FacesIdText(json);
      if text.Err? {
        return Err(text.error), [];
      }
      var cid := nameUuid(text.value);
      var faces := json.cardFaces.value;
      StartTwoFace(json, cid);
      ghost var s1 := Snap();
      TwoFaceStartMeaning(s0, json, cid);
      assert HadFace(s1, cid, Left) == HadFace(s0, cid, Left) && HadFace(s1, cid, Right) == HadFace(s0, cid, Right);
      var g0, g1 := TwoFacesFor(cid, Left, json, Some(faces[0]), Right, json, Some(faces[1]));
      TwoFaceProposed(s0, nameUuid, json, Left, Right, g0, g1);
      PrintTwo(cid, json.setCode, json, Left, g0, json, Some(faces[0]), Right, g1, json, Some(faces[1]));
      Enroll(json.setCode, PrintingRef(cid, json.id));
      r, ps := Ok(()), [g0, g1];
    }

    /** createFlip(jsonSets, jsonCards, json, sets, cards, printings): faces Front and Flipped; `ps` are the faces it proposed. */
    method CreateFlip(json: Card) returns (r: Result<()>, ghost ps: seq<Face<M, T>>)
      requires json.layout.Some? && var l := json.layout.value; l.Flip?
      modifies this
      ensures TwoFaceProposes(old(Snap()), nameUuid, json, Front, Flipped, ps)
      ensures (r, Snap()) == TwoFaceRun(old(Snap()), nameUuid, json, Front, Flipped, ps)
    {
      ghost var s0 := Snap();
      var text := IdText(jsonCards, json);
      assert text == FacesIdText(json);
      if text.Err? {
        return Err(text.error), [];
      }
      var cid := nameUuid(text.value);
      var faces := json.cardFaces.value;
      StartTwoFace(json, cid);
      ghost var s1 := Snap();
      TwoFaceStartMeaning(s0, json, cid);
      assert HadFace(s1, cid, Front) == HadFace(s0, cid, Front) && HadFace(s1, cid, Flipped) == HadFace(s0, cid, Flipped);
      var g0, g1 := TwoFacesFor(cid, Front, json, Some(faces[0]), Flipped, json, Some(faces[1]));
      TwoFaceProposed(s0, nameUuid, json, Front, Flipped, g0, g1);
      PrintTwo(cid, json.setCode, json, Front, g0, json, Some(faces[0]), Flipped, g1, json, Some(faces[1]));
      Enroll(json.setCode, PrintingRef(cid, json.id));
      r, ps := Ok(()), [g0, g1];
    }

    /** createTransform(jsonSets, jsonCards, json, sets, cards, printings): faces Front and Transformed; `ps` are the faces it proposed. */
    method CreateTransform(json: Card) returns (r: Result<()>, ghost ps: seq<Face<M, T>>)
      requires json.layout.Some? && var l := json.layout.value; l.Transform? || l.ModalDFC?
      modifies this
      ensures TwoFaceProposes(old(Snap()), nameUuid, json, Front, Transformed, ps)
      ensures (r, Snap()) == TwoFaceRun(old(Snap()), nameUuid, json, Front, Transformed, ps)
    {
      ghost var s0 := Snap();
      var text := IdText(jsonCards, json);
      assert text == FacesIdText(json);
      if text.Err? {
        return Err(text.error), [];
      }
      var cid := nameUuid(text.value);
      var faces := json.cardFaces.value;
      StartTwoFace(json, cid);
      ghost var s1 := Snap();
      TwoFaceStartMeaning(s0, json, cid);
      assert HadFace(s1, cid, Front) == HadFace(s0, cid, Front) && HadFace(s1, cid, Transformed) == HadFace(s0, cid, Transformed);
      var g0, g1 := TwoFacesFor(cid, Front, json, Some(faces[0]), Transformed, json, Some(faces[1]));
      TwoFaceProposed(s0, nameUuid, json, Front, Transformed, g0, g1);
      PrintTwo(cid, json.setCode, json, Front, g0, json, Some(faces[0]), Transformed, g1, json, Some(faces[1]));
      Enroll(json.setCode, PrintingRef(cid, json.id));
      r, ps := Ok(()), [g0, g1];
    }

    /** createAdventure(jsonSets, jsonCards, json, sets, cards, printings); `ps` are the faces it proposed. */
    method CreateAdventure(json: Card) returns (r: Result<()>, ghost ps: seq<Face<M, T>>)
      requires json.layout == Some(CL.Adventure)
      modifies this
      ensures AdventureProposes(old(Snap()), nameUuid, json, ps)
      ensures (r, Snap()) == AdventureRun(old(Snap()), nameUuid, json, ps)
    {
      ghost var s0 := Snap();
      var text := IdText(jsonCards, json);
      IdTextMeaning(jsonCards, json);
      if text.Err? {
        return Err(text.error), [];
      }
      var cid := nameUuid(text.value);
      StartTwoFace(json, cid);
      var main := FindFace(json.cardFaces.value, true);
      if main.Err? {
        return Err(main.error), [];
      }
      var adventure := FindFace(json.cardFaces.value, false);
      if adventure.Err? {
        return Err(adventure.error), [];
      }
      ghost var s1 := Snap();
      TwoFaceStartMeaning(s0, json, cid);
      assert HadFace(s1, cid, Front) == HadFace(s0, cid, Front) && HadFace(s1, cid, Other) == HadFace(s0, cid, Other);
      var g0, g1 := TwoFacesFor(cid, Front, json, Some(main.value), Other, json, Some(adventure.value));
      PrintTwo(cid, json.setCode, json, Front, g0, json, Some(main.value), Other, g1, json, Some(adventure.value));
      Enroll(json.setCode, PrintingRef(cid, json.id));
      r, ps := Ok(()), [g0, g1];
    }

    /** createMeld(jsonSets, jsonCards, json, sets, cards, printings); `ps` are the active front, the back and the passive front it proposed. */
    method CreateMeld(json: Card) returns (r: Result<()>, ghost ps: seq<Face<M, T>>)
      modifies this
      ensures MeldProposes(old(Snap()), nameUuid, json, ps)
      ensures (r, Snap()) == MeldRun(old(Snap()), nameUuid, json, ps)
    {
      ghost var s0 := Snap();
      var parts := MeldPartsOf(jsonCards, json);
      assert parts == MeldPartsOf(s0.jsonCards, json);
      if parts.Err? {
        return Err(parts.error), [];
      }
      var p := parts.value;
      var c1 := nameUuid(MeldIdText(p.active, p.back));
      var c2 := nameUuid(MeldIdText(p.passive, p.back));
      var f1, b, f2 := BuildMeld(p, c1, c2);
      MeldRunOf(s0, Snap(), nameUuid, json, p, c1, c2, f1, b, f2);
      r, ps := Ok(()), [f1, b, f2];
    }

    /** ScryfallCardFactory.create(jsonSets, jsonCards, json, sets, cards, printings); `ps` are the faces the selected builder proposed. */
    method Create(json: Card) returns (r: Result<()>, ghost ps: seq<Face<M, T>>)
      modifies this
      ensures CreateProposes(old(Snap()), nameUuid, json, ps)
      ensures (r, Snap()) == CreateRun(old(Snap()), nameUuid, json, ps)
    {
      match RouteOf(json.layout)
      case NullLayout =>
        r, ps := Err(NullPointer), [];
      case Simple =>
        var rec := SimpleRecord(json);
        if rec.Err? {
          return Err(rec.error), [];
        }
        NormalRecordMeaning(json);
        assert rec.value.layout == json.layout;
        r, ps := CreateSimple(rec.value);
      case SplitCard =>
        r, ps := CreateSplit(json);
      case FlipCard =>
        r, ps := CreateFlip(json);
      case TransformCard =>
        r, ps := CreateTransform(json);
      case MeldCard =>
        r, ps := CreateMeld(json);
      case AdventureCard =>
        r, ps := CreateAdventure(json);
      case NotACard =>
        Forget(json.id);
        r, ps := Ok(()), [];
      case Unexpected =>
        r, ps := Err(Failure), [];
    }
  }
}
