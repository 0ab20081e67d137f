/**
 * ScryfallDataSource.java: the data file's two sections, what update()
 * writes into them, and loadData(), which reads them back and drains the
 * pending card records through ScryfallCardFactory.create.
 *
 * The data file is modelled as its two entry names ("sets" and
 * "printings") and, under each, the sequence of its name/value pairs: a set
 * code with the set record Gson binds under it, or a printing id (as text)
 * with its card record.  The Scryfall API's answers (the set list and the
 * bulk card list) are parameters; so is UUID.toString.
 */
module DataSource {
  import opened Base
  import ApiCard
  import CL = CardLayoutEnum
  import ST = SetTypeEnum
  import GF = GameFormatEnum
  import LegalityEnum
  import CardFactory
  import ScryfallFaces

  type Uuid = ApiCard.Uuid
  type Card = ApiCard.Card

  /** One name/value pair of a section of the data file. */
  datatype Entry<V> = Entry(name: string, value: V)

  /** The data file: an object whose first name should be "sets" and second "printings". */
  datatype DataFile = DataFile(setsName: string, sets: seq<Entry<ApiCard.Set>>, printingsName: string, printings: seq<Entry<Card>>)

  /** A set of type Token. */
  predicate TokenSet(s: ApiCard.Set)
  {
    s.setType == Some(ST.Token)
  }

  // ---------------------------------------------------------------- update(): what it writes

  /**
   * The "sets" section update() writes: every set but the token sets, under
   * its code, in the order the API listed them.  JsonWriter.name throws
   * NullPointerException for a null code.
   */
  function SetsWritten(sets: seq<ApiCard.Set>): Result<seq<Entry<ApiCard.Set>>>
  {
    if sets == [] then Ok([])
    else if TokenSet(sets[0]) then SetsWritten(sets[1..])
    else if sets[0].code.None? then Err(NullPointer)
    else
      match SetsWritten(sets[1..])
      case Ok(rest) => Ok([Entry(sets[0].code.value, sets[0])] + rest)
      case Err(e) => Err(e)
  }

  /** The codes update() remembers as dropped: those of the token sets. */
  function DroppedCodes(sets: seq<ApiCard.Set>): set<Option<string>>
  {
    set i | 0 <= i < |sets| && TokenSet(sets[i]) :: sets[i].code
  }

  /** The formats update() means to strip from every record's legalities. */
  const DroppedFormats: seq<GF.GameFormat> := [GF.Duel, GF.OldSchool, GF.Unrecognized]

  /**
   * DROPPED_FORMATS.forEach(card.legalities::remove) as written: the map is
   * keyed by format names (Strings) and the keys removed are GameFormat
   * constants, which equal no String, so no entry goes.
   */
  function DropFormatsAsWritten(legalities: map<string, LegalityEnum.Legality>): map<string, LegalityEnum.Legality>
  {
    legalities
  }

  /** The serialised names of the dropped formats. */
  function DroppedNames(): set<string>
  {
    set f | f in DroppedFormats :: GF.Serialized(f)
  }

  /** The removal as intended: the entries under the dropped formats' serialised names go. */
  function DropFormats(legalities: map<string, LegalityEnum.Legality>): map<string, LegalityEnum.Legality>
  {
    legalities - DroppedNames()
  }

  /** A related part update() strips from allParts: a token or a combo piece. */
  predicate StrippedPart(p: ApiCard.Part)
  {
    p.component == Some("token") || p.component == Some("combo_piece")
  }

  /** allParts.removeIf(StrippedPart), keeping the order of the rest. */
  function KeptParts(parts: seq<ApiCard.Part>): (r: seq<ApiCard.Part>)
    ensures forall i :: 0 <= i < |r| ==> !StrippedPart(r[i]) && r[i] in parts
    ensures forall p :: p in parts && !StrippedPart(p) ==> p in r
    ensures r == [] <==> forall p :: p in parts ==> StrippedPart(p)
  {
    if parts == [] then []
    else if StrippedPart(parts[0]) then KeptParts(parts[1..])
    else [parts[0]] + KeptParts(parts[1..])
  }

  /** allParts as update() leaves it: null, or a non-empty list with no token or combo-piece part. */
  predicate CleanParts(parts: Option<seq<ApiCard.Part>>)
  {
    parts.Some? ==> parts.value != [] && forall i :: 0 <= i < |parts.value| ==> !StrippedPart(parts.value[i])
  }

  /** Records update() leaves out: token, double-faced token, emblem and art-series layouts, and records of dropped sets. */
  predicate SkippedOnUpdate(c: Card, dropped: set<Option<string>>)
  {
    || c.layout == Some(CL.Token) || c.layout == Some(CL.DoubleFacedToken) || c.layout == Some(CL.Emblem)
    || c.layout == Some(CL.ArtSeries)
    || Some(c.setCode) in dropped
  }

  /**
   * A kept record as update() writes it: the removal of the dropped formats
   * removes nothing (a null legalities map throws when the method reference
   * is taken), the token and combo-piece parts go, and an allParts list left
   * empty becomes null.
   */
  function Cleaned(c: Card): (r: Result<Card>)
    ensures r.Err? <==> c.legalities.None?
    ensures r.Err? ==> r.error == NullPointer
    ensures r.Ok? ==> r.value == c.(allParts := r.value.allParts)
    ensures r.Ok? ==> r.value.legalities == c.legalities
    ensures r.Ok? ==> CleanParts(r.value.allParts)
    ensures r.Ok? && r.value.allParts.Some? ==> c.allParts.Some? && forall p :: p in c.allParts.value && !StrippedPart(p) <==> p in r.value.allParts.value
    ensures r.Ok? ==> (r.value.allParts.None? <==> c.allParts.None? || forall p :: p in c.allParts.value ==> StrippedPart(p))
  {
    if c.legalities.None? then Err(NullPointer)
    else
      var parts := if c.allParts.None? || KeptParts(c.allParts.value) == [] then None else Some(KeptParts(c.allParts.value));
      Ok(c.(legalities := Some(DropFormatsAsWritten(c.legalities.value)), allParts := parts))
  }

  /** A kept record as update() means to write it: as Cleaned, but without the dropped formats' legalities. */
  function CleanedAsIntended(c: Card): (r: Result<Card>)
    ensures r.Err? <==> c.legalities.None?
    ensures r.Err? ==> r.error == NullPointer
    ensures r.Ok? ==> r.value == c.(legalities := r.value.legalities, allParts := r.value.allParts)
    ensures r.Ok? ==> r.value.legalities.Some? && r.value.legalities.value.Keys == c.legalities.value.Keys - DroppedNames()
    ensures r.Ok? ==> forall k :: k in r.value.legalities.value ==> r.value.legalities.value[k] == c.legalities.value[k]
    ensures r.Ok? ==> !("duel" in r.value.legalities.value || "oldschool" in r.value.legalities.value || "unrecognized" in r.value.legalities.value)
    ensures r.Ok? ==> r.value.allParts == Cleaned(c).value.allParts
  {
    match Cleaned(c)
    case Err(e) => Err(e)
    case Ok(k) =>
      DropFormatsMeaning(k.legalities.value);
      Ok(k.(legalities := Some(DropFormats(k.legalities.value))))
  }

  /** The "printings" section update() writes: each kept record, cleaned, under its id's text. */
  function CardsWritten(uuidText: Uuid -> string, cards: seq<Card>, dropped: set<Option<string>>): Result<seq<Entry<Card>>>
  {
    if cards == [] then Ok([])
    else if SkippedOnUpdate(cards[0], dropped) then CardsWritten(uuidText, cards[1..], dropped)
    else
      match Cleaned(cards[0])
      case Err(e) => Err(e)
      case Ok(c) =>
        match CardsWritten(uuidText, cards[1..], dropped)
        case Ok(rest) => Ok([Entry(uuidText(c.id), c)] + rest)
        case Err(e) => Err(e)
  }

  /** The file update() writes from the API's set list and bulk card list. */
  function FileWritten(uuidText: Uuid -> string, sets: seq<ApiCard.Set>, cards: seq<Card>): Result<DataFile>
  {
    match SetsWritten(sets)
    case Err(e) => Err(e)
    case Ok(ss) =>
      match CardsWritten(uuidText, cards, DroppedCodes(sets))
      case Err(e) => Err(e)
      case Ok(cs) => Ok(DataFile("sets", ss, "printings", cs))
  }

  /** What is written after ws when the write of the rest gives r. */
  function Then<V>(ws: seq<Entry<V>>, r: Result<seq<Entry<V>>>): Result<seq<Entry<V>>>
  {
    match r
    case Ok(rest) => Ok(ws + rest)
    case Err(e) => Err(e)
  }

  /** Writing nothing first changes nothing. */
  lemma ThenNothing<V>(r: Result<seq<Entry<V>>>)
    ensures Then([], r) == r
  {
    if r.Ok? {
      assert [] + r.value == r.value;
    }
  }

  /** Writing ws and then e is writing ws + [e]. */
  lemma ThenStep<V>(ws: seq<Entry<V>>, e: Entry<V>, r: Result<seq<Entry<V>>>)
    ensures Then(ws, Then([e], r)) == Then(ws + [e], r)
  {
    if r.Ok? {
      assert ws + ([e] + r.value) == (ws + [e]) + r.value;
    }
  }

  /** update()'s loop over the sets: the entries written and the dropped codes. */
  method WriteSets(sets: seq<ApiCard.Set>) returns (r: Result<seq<Entry<ApiCard.Set>>>, dropped: set<Option<string>>)
    ensures r == SetsWritten(sets)
    ensures dropped == DroppedCodes(sets)
  {
    var written: seq<Entry<ApiCard.Set>> := [];
    dropped := {};
    var i := 0;
    assert sets[i..] == sets;
    ThenNothing(SetsWritten(sets));
    while i < |sets|
      invariant 0 <= i <= |sets|
      invariant SetsWritten(sets) == Then(written, SetsWritten(sets[i..]))
      invariant dropped == DroppedCodes(sets[..i])
    {
      var s := sets[i];
      assert sets[i..][1..] == sets[i + 1..];
      assert DroppedCodes(sets[..i + 1]) == DroppedCodes(sets[..i]) + (if TokenSet(s) then {s.code} else {}) by {
        assert forall j :: 0 <= j < i ==> sets[..i + 1][j] == sets[..i][j];
      }
      if TokenSet(s) {
        dropped := dropped + {s.code};
      } else if s.code.None? {
        r := Err(NullPointer);
        dropped := DroppedCodes(sets);
        return;
      } else {
        ThenStep(written, Entry(s.code.value, s), SetsWritten(sets[i + 1..]));
        written := written + [Entry(s.code.value, s)];
      }
      i := i + 1;
    }
    assert sets[..i] == sets && sets[i..] == [] && written + [] == written;
    r := Ok(written);
  }

  /** update()'s loop over the bulk card list. */
  method WriteCards(uuidText: Uuid -> string, cards: seq<Card>, dropped: set<Option<string>>) returns (r: Result<seq<Entry<Card>>>)
    ensures r == CardsWritten(uuidText, cards, dropped)
  {
    var written: seq<Entry<Card>> := [];
    var i := 0;
    assert cards[i..] == cards;
    ThenNothing(CardsWritten(uuidText, cards, dropped));
    while i < |cards|
      invariant 0 <= i <= |cards|
      invariant CardsWritten(uuidText, cards, dropped) == Then(written, CardsWritten(uuidText, cards[i..], dropped))
    {
      var c := cards[i];
      assert cards[i..][1..] == cards[i + 1..];
      if !SkippedOnUpdate(c, dropped) {
        var cleaned := Cleaned(c);
        if cleaned.Err? {
          return Err(cleaned.error);
        }
        ThenStep(written, Entry(uuidText(cleaned.value.id), cleaned.value), CardsWritten(uuidText, cards[i + 1..], dropped));
        written := written + [Entry(uuidText(cleaned.value.id), cleaned.value)];
      }
      i := i + 1;
    }
    assert cards[i..] == [] && written + [] == written;
    r := Ok(written);
  }

  /** update(): the sets section, then the printings section. */
  method Update(uuidText: Uuid -> string, sets: seq<ApiCard.Set>, cards: seq<Card>) returns (r: Result<DataFile>)
    ensures r == FileWritten(uuidText, sets, cards)
  {
    var ss, dropped := WriteSets(sets);
    if ss.Err? {
      return Err(ss.error);
    }
    var cs := WriteCards(uuidText, cards, dropped);
    if cs.Err? {
      return Err(cs.error);
    }
    r := Ok(DataFile("sets", ss.value, "printings", cs.value));
  }

  /** The dropped formats' serialised names are "duel", "oldschool" and "unrecognized". */
  lemma DroppedNamesAre()
    ensures DroppedNames() == {"duel", "oldschool", "unrecognized"}
  {
    assert GF.Serialized(GF.Duel) == "duel";
    assert GF.Serialized(GF.OldSchool) == "oldschool";
    assert GF.Serialized(GF.Unrecognized) == "unrecognized";
  }

  /** The corrected removal leaves no dropped format and keeps every other entry as it was. */
  lemma DropFormatsMeaning(legalities: map<string, LegalityEnum.Legality>)
    ensures "duel" !in DropFormats(legalities) && "oldschool" !in DropFormats(legalities) && "unrecognized" !in DropFormats(legalities)
    ensures forall k :: k in legalities && k !in DroppedNames() ==> k in DropFormats(legalities) && DropFormats(legalities)[k] == legalities[k]
  {
    DroppedNamesAre();
  }

  /** As written, a record's "duel" legality survives update(), which the corrected removal drops. */
  lemma DropFormatsAsWrittenKeepsDuel(legality: LegalityEnum.Legality)
    ensures "duel" in DropFormatsAsWritten(map["duel" := legality])
    ensures DropFormatsAsWritten(map["duel" := legality]) != DropFormats(map["duel" := legality])
  {
    DroppedNamesAre();
    assert "duel" !in DropFormats(map["duel" := legality]);
  }

  /** The codes of the non-token sets that have one. */
  function KeptCodes(sets: seq<ApiCard.Set>): set<string>
  {
    set i | 0 <= i < |sets| && !TokenSet(sets[i]) && sets[i].code.Some? :: sets[i].code.value
  }

  lemma KeptCodesSplit(sets: seq<ApiCard.Set>)
    requires sets != []
    ensures KeptCodes(sets) == (if !TokenSet(sets[0]) && sets[0].code.Some? then {sets[0].code.value} else {}) + KeptCodes(sets[1..])
  {
    forall x | x in KeptCodes(sets)
      ensures x in (if !TokenSet(sets[0]) && sets[0].code.Some? then {sets[0].code.value} else {}) + KeptCodes(sets[1..])
    {
      var i :| 0 <= i < |sets| && !TokenSet(sets[i]) && sets[i].code.Some? && sets[i].code.value == x;
      if i > 0 {
        assert sets[1..][i - 1] == sets[i];
      }
    }
    forall x | x in KeptCodes(sets[1..])
      ensures x in KeptCodes(sets)
    {
      var i :| 0 <= i < |sets[1..]| && !TokenSet(sets[1..][i]) && sets[1..][i].code.Some? && sets[1..][i].code.value == x;
      assert sets[i + 1] == sets[1..][i];
    }
  }

  /** The API's sets without the token sets, in the API's order. */
  function NonTokenSets(sets: seq<ApiCard.Set>): (r: seq<ApiCard.Set>)
    ensures forall i :: 0 <= i < |r| ==> !TokenSet(r[i]) && r[i] in sets
    ensures forall s :: s in sets && !TokenSet(s) ==> s in r
  {
    if sets == [] then []
    else if TokenSet(sets[0]) then NonTokenSets(sets[1..])
    else [sets[0]] + NonTokenSets(sets[1..])
  }

  /**
   * Writing the "sets" section fails exactly when some non-token set has a
   * null code; otherwise each entry is a non-token set under its own code, and
   * the names written are the codes of the non-token sets.
   */
  lemma {:induction false} SetsWrittenMeaning(sets: seq<ApiCard.Set>)
    ensures SetsWritten(sets).Err? <==> exists i :: 0 <= i < |sets| && !TokenSet(sets[i]) && sets[i].code.None?
    ensures SetsWritten(sets).Err? ==> SetsWritten(sets).error == NullPointer
    ensures SetsWritten(sets).Ok? ==>
      var ws := SetsWritten(sets).value;
      (forall i :: 0 <= i < |ws| ==> FiledSet(ws[i].name, ws[i].value)) && KeptSetNames(ws) == KeptCodes(sets)
  {
    if sets != [] {
      SetsWrittenMeaning(sets[1..]);
      KeptCodesSplit(sets);
      forall i | 0 <= i < |sets[1..]| ensures sets[1..][i] == sets[i + 1] { }
      if exists i :: 0 <= i < |sets| && !TokenSet(sets[i]) && sets[i].code.None? {
        var i :| 0 <= i < |sets| && !TokenSet(sets[i]) && sets[i].code.None?;
        assert i > 0 ==> sets[1..][i - 1] == sets[i];
      }
      if SetsWritten(sets).Ok? && !TokenSet(sets[0]) {
        var ws := SetsWritten(sets).value;
        assert ws[1..] == SetsWritten(sets[1..]).value;
        KeptSetNamesSplit(ws);
      }
    }
  }

  /** A written "sets" section holds the non-token sets, one entry each, in the API's order. */
  lemma {:induction false} SetsWrittenInOrder(sets: seq<ApiCard.Set>)
    ensures SetsWritten(sets).Ok? ==>
      var ws := SetsWritten(sets).value;
      |ws| == |NonTokenSets(sets)| && forall i :: 0 <= i < |ws| ==> ws[i].value == NonTokenSets(sets)[i]
  {
    if sets != [] {
      SetsWrittenInOrder(sets[1..]);
      if SetsWritten(sets).Ok? && !TokenSet(sets[0]) {
        var ws := SetsWritten(sets).value;
        var rest := SetsWritten(sets[1..]).value;
        assert ws == [Entry(sets[0].code.value, sets[0])] + rest;
        forall i | 1 <= i < |ws| ensures ws[i].value == NonTokenSets(sets)[i] {
          assert ws[i] == rest[i - 1];
        }
      }
    }
  }

  /** The ids of the records update() keeps. */
  function KeptIds(cards: seq<Card>, dropped: set<Option<string>>): set<Uuid>
  {
    set i | 0 <= i < |cards| && !SkippedOnUpdate(cards[i], dropped) :: cards[i].id
  }

  lemma KeptIdsSplit(cards: seq<Card>, dropped: set<Option<string>>)
    requires cards != []
    ensures KeptIds(cards, dropped) == (if SkippedOnUpdate(cards[0], dropped) then {} else {cards[0].id}) + KeptIds(cards[1..], dropped)
  {
    forall x | x in KeptIds(cards, dropped)
      ensures x in (if SkippedOnUpdate(cards[0], dropped) then {} else {cards[0].id}) + KeptIds(cards[1..], dropped)
    {
      var i :| 0 <= i < |cards| && !SkippedOnUpdate(cards[i], dropped) && cards[i].id == x;
      if i > 0 {
        assert cards[1..][i - 1] == cards[i];
      }
    }
    forall x | x in KeptIds(cards[1..], dropped)
      ensures x in KeptIds(cards, dropped)
    {
      var i :| 0 <= i < |cards[1..]| && !SkippedOnUpdate(cards[1..][i], dropped) && cards[1..][i].id == x;
      assert cards[i + 1] == cards[1..][i];
    }
  }

  /** A record as update() writes it: under its id's text, not a token, with clean parts and legalities. */
  predicate WrittenRecord(uuidText: Uuid -> string, e: Entry<Card>)
  {
    && e.name == uuidText(e.value.id)
    && !TokenRecord(e.value) && e.value.layout != Some(CL.Emblem) && e.value.layout != Some(CL.ArtSeries)
    && CleanParts(e.value.allParts)
    && e.value.legalities.Some?
  }

  /**
   * Writing the "printings" section fails exactly when some kept record has
   * null legalities; otherwise every entry is a cleaned record under its id's
   * text, and the ids written are those of the kept records.
   */
  lemma {:induction false} CardsWrittenMeaning(uuidText: Uuid -> string, cards: seq<Card>, dropped: set<Option<string>>)
    ensures CardsWritten(uuidText, cards, dropped).Err? <==>
      exists i :: 0 <= i < |cards| && !SkippedOnUpdate(cards[i], dropped) && cards[i].legalities.None?
    ensures CardsWritten(uuidText, cards, dropped).Err? ==> CardsWritten(uuidText, cards, dropped).error == NullPointer
    ensures CardsWritten(uuidText, cards, dropped).Ok? ==>
      var ws := CardsWritten(uuidText, cards, dropped).value;
      (forall i :: 0 <= i < |ws| ==> WrittenRecord(uuidText, ws[i])) && KeptCardIds(ws) == KeptIds(cards, dropped)
  {
    if cards != [] {
      CardsWrittenMeaning(uuidText, cards[1..], dropped);
      KeptIdsSplit(cards, dropped);
      forall i | 0 <= i < |cards[1..]| ensures cards[1..][i] == cards[i + 1] { }
      if exists i :: 0 <= i < |cards| && !SkippedOnUpdate(cards[i], dropped) && cards[i].legalities.None? {
        var i :| 0 <= i < |cards| && !SkippedOnUpdate(cards[i], dropped) && cards[i].legalities.None?;
        assert i > 0 ==> cards[1..][i - 1] == cards[i];
      }
      if CardsWritten(uuidText, cards, dropped).Ok? && !SkippedOnUpdate(cards[0], dropped) {
        var ws := CardsWritten(uuidText, cards, dropped).value;
        assert ws[1..] == CardsWritten(uuidText, cards[1..], dropped).value;
        KeptCardIdsSplit(ws);
      }
    }
  }

  /** Each entry written is Cleaned of a record update() kept. */
  lemma {:induction false} CardsWrittenFrom(uuidText: Uuid -> string, cards: seq<Card>, dropped: set<Option<string>>)
    ensures CardsWritten(uuidText, cards, dropped).Ok? ==>
      var ws := CardsWritten(uuidText, cards, dropped).value;
      forall i :: 0 <= i < |ws| ==> exists j :: 0 <= j < |cards| && !SkippedOnUpdate(cards[j], dropped) && Cleaned(cards[j]) == Ok(ws[i].value)
  {
    if cards != [] && CardsWritten(uuidText, cards, dropped).Ok? {
      var tail := cards[1..];
      assert CardsWritten(uuidText, tail, dropped).Ok?;
      CardsWrittenFrom(uuidText, tail, dropped);
      var ws := CardsWritten(uuidText, cards, dropped).value;
      var wt := CardsWritten(uuidText, tail, dropped).value;
      var off := if SkippedOnUpdate(cards[0], dropped) then 0 else 1;
      assert ws[off..] == wt;
      forall i | off <= i < |ws|
        ensures exists j :: 0 <= j < |cards| && !SkippedOnUpdate(cards[j], dropped) && Cleaned(cards[j]) == Ok(ws[i].value)
      {
        assert ws[i] == wt[i - off];
        var j :| 0 <= j < |tail| && !SkippedOnUpdate(tail[j], dropped) && Cleaned(tail[j]) == Ok(wt[i - off].value);
        assert tail[j] == cards[j + 1];
      }
      if off == 1 {
        assert Cleaned(cards[0]) == Ok(ws[0].value);
      }
    }
  }


  /**
   * What update() writes, loadData reads back without an IOException: the
   * sets read are filed under the codes of the API's non-token sets, and the
   * pending records are the records update() kept, under their ids.
   */
  lemma UpdateThenLoad(uuidText: Uuid -> string, sets: seq<ApiCard.Set>, cards: seq<Card>)
    requires FileWritten(uuidText, sets, cards).Ok?
    ensures FileRead(uuidText, FileWritten(uuidText, sets, cards).value).Ok?
    ensures
      var (jsonSets, jsonCards) := FileRead(uuidText, FileWritten(uuidText, sets, cards).value).value;
      jsonSets.Keys == KeptCodes(sets) && jsonCards.Keys == KeptIds(cards, DroppedCodes(sets))
  {
    var f := FileWritten(uuidText, sets, cards).value;
    SetsWrittenMeaning(sets);
    CardsWrittenMeaning(uuidText, cards, DroppedCodes(sets));
    FileReadMeaning(uuidText, f);
    assert KeptSetNames(f.sets) == KeptCodes(sets) by {
      forall i | 0 <= i < |f.sets| ensures !TokenSet(f.sets[i].value) { assert FiledSet(f.sets[i].name, f.sets[i].value); }
    }
  }

  // ---------------------------------------------------------------- loadData(): what it reads

  /**
   * Reading the "sets" section on from acc: an entry whose name is not its
   * set's code throws IOException; a token set is skipped; any other set is
   * put under its code, replacing an earlier one.
   */
  function SetsReadFrom(acc: map<string, ApiCard.Set>, es: seq<Entry<ApiCard.Set>>): Result<map<string, ApiCard.Set>>
    decreases |es|
  {
    if es == [] then Ok(acc)
    else if es[0].value.code != Some(es[0].name) then Err(IOError)
    else SetsReadFrom(if TokenSet(es[0].value) then acc else acc[es[0].name := es[0].value], es[1..])
  }

  /** A token record or a double-faced token record, which loadData never queues. */
  predicate TokenRecord(c: Card)
  {
    c.layout == Some(CL.Token) || c.layout == Some(CL.DoubleFacedToken)
  }

  /**
   * Reading the "printings" section on from acc: an entry whose name is not
   * its record's id as text throws IOException; tokens are skipped; any other
   * record is put under its id.
   */
  function CardsReadFrom(uuidText: Uuid -> string, acc: map<Uuid, Card>, es: seq<Entry<Card>>): Result<map<Uuid, Card>>
    decreases |es|
  {
    if es == [] then Ok(acc)
    else if es[0].name != uuidText(es[0].value.id) then Err(IOError)
    else CardsReadFrom(uuidText, if TokenRecord(es[0].value) then acc else acc[es[0].value.id := es[0].value], es[1..])
  }

  /** The set records and pending card records loadData reads from a file, or the IOException it throws. */
  function FileRead(uuidText: Uuid -> string, f: DataFile): Result<(map<string, ApiCard.Set>, map<Uuid, Card>)>
  {
    if f.setsName != "sets" then Err(IOError)
    else
      match SetsReadFrom(map[], f.sets)
      case Err(e) => Err(e)
      case Ok(jsonSets) =>
        if f.printingsName != "printings" then Err(IOError)
        else
          match CardsReadFrom(uuidText, map[], f.printings)
          case Err(e) => Err(e)
          case Ok(jsonCards) => Ok((jsonSets, jsonCards))
  }

  /** loadData's loop over the "sets" section. */
  method ReadSets(es: seq<Entry<ApiCard.Set>>) returns (r: Result<map<string, ApiCard.Set>>)
    ensures r == SetsReadFrom(map[], es)
  {
    var jsonSets: map<string, ApiCard.Set> := map[];
    var i := 0;
    while i < |es|
      invariant 0 <= i <= |es|
      invariant SetsReadFrom(map[], es) == SetsReadFrom(jsonSets, es[i..])
    {
      var e := es[i];
      assert es[i..][1..] == es[i + 1..];
      if e.value.code != Some(e.name) {
        return Err(IOError);
      }
      if !TokenSet(e.value) {
        jsonSets := jsonSets[e.name := e.value];
      }
      i := i + 1;
    }
    r := Ok(jsonSets);
  }

  /** loadData's loop over the "printings" section. */
  method ReadCards(uuidText: Uuid -> string, es: seq<Entry<Card>>) returns (r: Result<map<Uuid, Card>>)
    ensures r == CardsReadFrom(uuidText, map[], es)
  {
    var jsonCards: map<Uuid, Card> := map[];
    var i := 0;
    while i < |es|
      invariant 0 <= i <= |es|
      invariant CardsReadFrom(uuidText, map[], es) == CardsReadFrom(uuidText, jsonCards, es[i..])
    {
      var e := es[i];
      assert es[i..][1..] == es[i + 1..];
      if e.name != uuidText(e.value.id) {
        return Err(IOError);
      }
      if !TokenRecord(e.value) {
        jsonCards := jsonCards[e.value.id := e.value];
      }
      i := i + 1;
    }
    r := Ok(jsonCards);
  }

  /** Taking one key out of a map no larger than one that holds it leaves fewer entries. */
  lemma RemoveFromSubmapShrinks<V>(a: map<Uuid, V>, b: map<Uuid, V>, k: Uuid)
    requires a.Keys <= b.Keys && k in b
    ensures |a - {k}| < |b|
  {
    assert (a - {k}).Keys == a.Keys - {k};
    assert a.Keys - {k} < b.Keys;
    SubsetSmaller(a.Keys - {k}, b.Keys);
  }

  lemma {:induction false} SubsetSmaller<X>(a: set<X>, b: set<X>)
    requires a < b
    ensures |a| < |b|
  {
    var x :| x in b && x !in a;
    assert a <= b - {x};
    SubsetNoLarger(a, b - {x});
  }

  lemma {:induction false} SubsetNoLarger<X>(a: set<X>, b: set<X>)
    requires a <= b
    ensures |a| <= |b|
    decreases |b|
  {
    if a != {} {
      var x :| x in a;
      SubsetNoLarger(a - {x}, b - {x});
    }
  }

  // ---------------------------------------------------------------- the data source

  /** ScryfallDataSource: the set, card and printing registries loadData fills. */
  class ScryfallDataSource<M, T> {
    var sets: map<string, CardFactory.SetNode>
    var cards: map<Uuid, CardFactory.CardNode<M, T>>
    var printings: map<Uuid, CardFactory.PrintingRef>

    /** The three registries start empty. */
    constructor()
      ensures sets == map[] && cards == map[] && printings == map[]
    {
      sets := map[];
      cards := map[];
      printings := map[];
    }

    /**
     * loadData(): the registries are cleared; the file's two sections are read
     * (a wrong entry name throws IOException with the registries empty); then
     * records are taken from the pending map in any order and handed to
     * create() until none is pending.  A record create() throws on is removed
     * from the pending map (if create did not remove it) and the loop goes
     * on; printing the message reads the record's uri, so a null uri there
     * throws NullPointerException out of loadData.  `nameUuid` and `lib` are
     * the factory's; `uuidText` is UUID.toString.
     */
    method LoadData(lib: ScryfallFaces.Library<M, T>, nameUuid: string -> Uuid, uuidText: Uuid -> string, file: DataFile)
      returns (r: Result<()>)
      modifies this
      ensures FileRead(uuidText, file).Err? ==> r == Err(IOError) && sets == map[] && cards == map[] && printings == map[]
      ensures FileRead(uuidText, file).Ok? ==>
        var (jsonSets, jsonCards) := FileRead(uuidText, file).value;
        && (r.Ok? ==> CardFactory.Inv(CardFactory.State(jsonSets, map[], sets, cards, printings)))
        && (r.Ok? ==> printings.Keys <= jsonCards.Keys)
        && (r.Ok? ==> forall id :: id in jsonCards ==>
              id in printings || CardFactory.Unprinted(jsonCards[id]) || CardFactory.MayFail(jsonCards[id]))
        && (r.Err? ==> r == Err(NullPointer) && exists id :: id in jsonCards && jsonCards[id].uri.None?)
    {
      sets, cards, printings := map[], map[], map[];
      if file.setsName != "sets" {
        return Err(IOError);
      }
      var readSets := ReadSets(file.sets);
      if readSets.Err? {
        return Err(IOError);
      }
      if file.printingsName != "printings" {
        return Err(IOError);
      }
      var readCards := ReadCards(uuidText, file.printings);
      if readCards.Err? {
        return Err(IOError);
      }
      var jsonSets, jsonCards := readSets.value, readCards.value;
      FileReadMeaning(uuidText, file);
      var g := new CardFactory.Registry(lib, nameUuid, jsonSets, jsonCards);
      // the records create() threw on
      ghost var failed: set<Uuid> := {};
      while g.jsonCards != map[]
        invariant g.Valid() && g.jsonSets == jsonSets && g.nameUuid == nameUuid
        invariant LoadedSoFar(jsonCards, failed, g.Snap())
        decreases |g.jsonCards|
      {
        var id :| id in g.jsonCards;
        var json := g.jsonCards[id];
        ghost var s := g.Snap();
        var res, ps := g.Create(json);
        CardFactory.CreateRunKeeps(s, nameUuid, json, ps);
        CardFactory.CreateRunShrinks(s, nameUuid, json, ps);
        CardFactory.CreateRunAccounts(s, nameUuid, json, ps);
        LoadStep(jsonCards, failed, s, g.Snap(), res, json);
        if res.Err? {
          failed := failed + {json.id};
          ghost var t := g.Snap();
          CardFactory.ForgetStep(t, json.id);
          RemoveFromSubmapShrinks(t.jsonCards, s.jsonCards, json.id);
          g.Forget(json.id);
          if json.uri.None? {
            sets, cards, printings := g.sets, g.cards, g.printings;
            return Err(NullPointer);
          }
        }
      }
      sets, cards, printings := g.sets, g.cards, g.printings;
      r := Ok(());
    }
  }

  /**
   * What loadData's loop keeps of the records read: the pending map is part
   * of them, printings are registered only for them, the records create()
   * threw on are ones it may throw on, and every record taken off the map
   * has its printing, is one create() registers nothing for, or threw.
   */
  ghost predicate LoadedSoFar<M, T>(jsonCards: map<Uuid, Card>, failed: set<Uuid>, st: CardFactory.State<M, T>)
  {
    && CardFactory.Extends(st.jsonCards, jsonCards)
    && st.printings.Keys <= jsonCards.Keys
    && (forall id :: id in failed ==> id in jsonCards && CardFactory.MayFail(jsonCards[id]))
    && (forall id :: id in jsonCards && id !in st.jsonCards ==>
          id in st.printings || CardFactory.Unprinted(jsonCards[id]) || id in failed)
  }

  /** One create() call, and the removal loadData does after a failing one, keep LoadedSoFar. */
  lemma LoadStep<M, T>(jsonCards: map<Uuid, Card>, failed: set<Uuid>, s: CardFactory.State<M, T>, t: CardFactory.State<M, T>,
                       r: Result<()>, json: Card)
    requires LoadedSoFar(jsonCards, failed, s)
    requires json.id in s.jsonCards && s.jsonCards[json.id] == json
    requires CardFactory.Grows(s, t) && CardFactory.Accounted(s, t, r, json)
    ensures r.Ok? ==> LoadedSoFar(jsonCards, failed, t)
    ensures r.Err? ==> LoadedSoFar(jsonCards, failed + {json.id}, CardFactory.Forgotten(t, json.id))
  {
  }

  // ---------------------------------------------------------------- properties of the readers

  /** The names of the non-token sets in a "sets" section. */
  function KeptSetNames(es: seq<Entry<ApiCard.Set>>): set<string>
  {
    set i | 0 <= i < |es| && !TokenSet(es[i].value) :: es[i].name
  }

  /** The ids of the non-token records in a "printings" section. */
  function KeptCardIds(es: seq<Entry<Card>>): set<Uuid>
  {
    set i | 0 <= i < |es| && !TokenRecord(es[i].value) :: es[i].value.id
  }

  lemma KeptSetNamesSplit(es: seq<Entry<ApiCard.Set>>)
    requires es != []
    ensures KeptSetNames(es) == (if TokenSet(es[0].value) then {} else {es[0].name}) + KeptSetNames(es[1..])
  {
    forall x | x in KeptSetNames(es)
      ensures x in (if TokenSet(es[0].value) then {} else {es[0].name}) + KeptSetNames(es[1..])
    {
      var i :| 0 <= i < |es| && !TokenSet(es[i].value) && es[i].name == x;
      if i > 0 {
        assert es[1..][i - 1] == es[i];
      }
    }
    forall x | x in KeptSetNames(es[1..])
      ensures x in KeptSetNames(es)
    {
      var i :| 0 <= i < |es[1..]| && !TokenSet(es[1..][i].value) && es[1..][i].name == x;
      assert es[i + 1] == es[1..][i];
    }
  }

  lemma KeptCardIdsSplit(es: seq<Entry<Card>>)
    requires es != []
    ensures KeptCardIds(es) == (if TokenRecord(es[0].value) then {} else {es[0].value.id}) + KeptCardIds(es[1..])
  {
    forall x | x in KeptCardIds(es)
      ensures x in (if TokenRecord(es[0].value) then {} else {es[0].value.id}) + KeptCardIds(es[1..])
    {
      var i :| 0 <= i < |es| && !TokenRecord(es[i].value) && es[i].value.id == x;
      if i > 0 {
        assert es[1..][i - 1] == es[i];
      }
    }
    forall x | x in KeptCardIds(es[1..])
      ensures x in KeptCardIds(es)
    {
      var i :| 0 <= i < |es[1..]| && !TokenRecord(es[1..][i].value) && es[1..][i].value.id == x;
      assert es[i + 1] == es[1..][i];
    }
  }

  /** A set record filed under its own code, and not a token set. */
  predicate FiledSet(k: string, s: ApiCard.Set)
  {
    s.code == Some(k) && !TokenSet(s)
  }

  /**
   * Reading the "sets" section fails, with IOException, exactly when some
   * entry's name is not its set's code; otherwise every set read is filed
   * under its code, no token set is among them, and the codes are those of
   * the section's non-token sets (on top of what was read before).
   */
  lemma {:induction false} SetsReadMeaning(acc: map<string, ApiCard.Set>, es: seq<Entry<ApiCard.Set>>)
    requires forall k :: k in acc ==> FiledSet(k, acc[k])
    ensures SetsReadFrom(acc, es).Err? <==> exists i :: 0 <= i < |es| && es[i].value.code != Some(es[i].name)
    ensures SetsReadFrom(acc, es).Err? ==> SetsReadFrom(acc, es).error == IOError
    ensures SetsReadFrom(acc, es).Ok? ==>
      var m := SetsReadFrom(acc, es).value;
      m.Keys == acc.Keys + KeptSetNames(es) && forall k :: k in m ==> FiledSet(k, m[k])
    decreases |es|
  {
    if es != [] {
      KeptSetNamesSplit(es);
      var e := es[0];
      if e.value.code == Some(e.name) {
        SetsReadMeaning(if TokenSet(e.value) then acc else acc[e.name := e.value], es[1..]);
        forall i | 0 <= i < |es[1..]| ensures es[1..][i] == es[i + 1] { }
        if exists i :: 0 <= i < |es| && es[i].value.code != Some(es[i].name) {
          var i :| 0 <= i < |es| && es[i].value.code != Some(es[i].name);
          assert es[1..][i - 1] == es[i];
        }
      }
    }
  }

  /**
   * Reading the "printings" section fails, with IOException, exactly when
   * some entry's name is not its record's id as text; otherwise every record
   * read is filed under its own id, none is a token, and the ids are those of
   * the section's non-token records (on top of what was read before).
   */
  lemma {:induction false} CardsReadMeaning(uuidText: Uuid -> string, acc: map<Uuid, Card>, es: seq<Entry<Card>>)
    requires CardFactory.KeyedById(acc) && forall id :: id in acc ==> !TokenRecord(acc[id])
    ensures CardsReadFrom(uuidText, acc, es).Err? <==> exists i :: 0 <= i < |es| && es[i].name != uuidText(es[i].value.id)
    ensures CardsReadFrom(uuidText, acc, es).Err? ==> CardsReadFrom(uuidText, acc, es).error == IOError
    ensures CardsReadFrom(uuidText, acc, es).Ok? ==>
      var m := CardsReadFrom(uuidText, acc, es).value;
      && m.Keys == acc.Keys + KeptCardIds(es)
      && CardFactory.KeyedById(m) && forall id :: id in m ==> !TokenRecord(m[id])
    decreases |es|
  {
    if es != [] {
      KeptCardIdsSplit(es);
      var e := es[0];
      if e.name == uuidText(e.value.id) {
        CardsReadMeaning(uuidText, if TokenRecord(e.value) then acc else acc[e.value.id := e.value], es[1..]);
        forall i | 0 <= i < |es[1..]| ensures es[1..][i] == es[i + 1] { }
        if exists i :: 0 <= i < |es| && es[i].name != uuidText(es[i].value.id) {
          var i :| 0 <= i < |es| && es[i].name != uuidText(es[i].value.id);
          assert es[1..][i - 1] == es[i];
        }
      }
    }
  }

  /** Reading a file fails exactly with IOException: a wrong section name or a wrong entry name. */
  lemma FileReadMeaning(uuidText: Uuid -> string, f: DataFile)
    ensures FileRead(uuidText, f).Err? ==> FileRead(uuidText, f).error == IOError
    ensures FileRead(uuidText, f).Err? <==>
      || f.setsName != "sets" || f.printingsName != "printings"
      || (exists i :: 0 <= i < |f.sets| && f.sets[i].value.code != Some(f.sets[i].name))
      || (exists i :: 0 <= i < |f.printings| && f.printings[i].name != uuidText(f.printings[i].value.id))
    ensures FileRead(uuidText, f).Ok? ==>
      var (jsonSets, jsonCards) := FileRead(uuidText, f).value;
      && jsonSets.Keys == KeptSetNames(f.sets) && (forall k :: k in jsonSets ==> FiledSet(k, jsonSets[k]))
      && jsonCards.Keys == KeptCardIds(f.printings)
      && CardFactory.KeyedById(jsonCards) && (forall id :: id in jsonCards ==> !TokenRecord(jsonCards[id]))
  {
    SetsReadMeaning(map[], f.sets);
    CardsReadMeaning(uuidText, map[], f.printings);
  }
}
