/**
 * serde/Json.java: the gzipped JSON data file.  The document is one object
 * holding a "sets" object (set code to set) and a "cards" object (a "count"
 * entry, then card id to card).  The Gson stream is modelled as a sequence
 * of tokens; the binding of a set or a card to JSON fields is Gson's and is
 * modelled as a single value token.
 */
module JsonSerde {
  import opened Base
  import opened SerdeProtocol
  import ApiCard

  /** The tokens of a Gson JsonWriter / JsonReader stream. */
  datatype Token =
    | BeginObject
    | EndObject
    | Name(name: string)
    | SetValue(value: ApiCard.Set)
    | CardValue(card: ApiCard.Card)
    | Number(n: int)

  // ---- What each write call appends ----------------------------------

  function SetsStart(): seq<Token> { [Name("sets"), BeginObject] }
  function SetEntry(code: string, s: ApiCard.Set): seq<Token> { [Name(code), SetValue(s)] }
  function CardsStart(count: int): seq<Token> { [Name("cards"), BeginObject, Name("count"), Number(count)] }
  function CardEntry(idText: string, c: ApiCard.Card): seq<Token> { [Name(idText), CardValue(c)] }

  // ---- The reader primitives Json.java uses --------------------------

  /** JsonReader.nextName: EOFException at the end, IllegalStateException on any other token. */
  function NextName(input: seq<Token>, p: nat): (r: Result<string>)
    ensures r.Ok? <==> p < |input| && input[p].Name?
    ensures r.Ok? ==> input[p] == Name(r.value)
  {
    if p >= |input| then Err(IOError)
    else if input[p].Name? then Ok(input[p].name)
    else Err(IllegalState)
  }

  /** JsonReader.beginObject / endObject: consume exactly the token t. */
  function Consume(input: seq<Token>, p: nat, t: Token): (r: Result<()>)
    ensures r.Ok? <==> p < |input| && input[p] == t
  {
    if p >= |input| then Err(IOError)
    else if input[p] == t then Ok(())
    else Err(IllegalState)
  }

  /** JsonReader.peek() == JsonToken.NAME. */
  function PeekName(input: seq<Token>, p: nat): (r: Result<bool>)
    ensures r.Ok? <==> p < |input|
    ensures r.Ok? ==> (r.value <==> input[p].Name?)
  {
    if p >= |input| then Err(IOError) else Ok(input[p].Name?)
  }

  /**
   * Gson.fromJson for a set: null for an empty remainder (the caller then
   * dereferences it), the set for a set value, JsonSyntaxException otherwise.
   */
  function SetAt(input: seq<Token>, p: nat): (r: Result<ApiCard.Set>)
    ensures r.Ok? <==> p < |input| && input[p].SetValue?
    ensures r.Ok? ==> input[p] == SetValue(r.value)
    ensures r.Err? && p >= |input| ==> r.error == NullPointer
  {
    if p >= |input| then Err(NullPointer)
    else if input[p].SetValue? then Ok(input[p].value)
    else Err(JsonSyntax)
  }

  /** Gson.fromJson for a card, in the same way. */
  function CardAt(input: seq<Token>, p: nat): (r: Result<ApiCard.Card>)
    ensures r.Ok? <==> p < |input| && input[p].CardValue?
    ensures r.Ok? ==> input[p] == CardValue(r.value)
    ensures r.Err? && p >= |input| ==> r.error == NullPointer
  {
    if p >= |input| then Err(NullPointer)
    else if input[p].CardValue? then Ok(input[p].card)
    else Err(JsonSyntax)
  }

  /** JsonReader.nextInt: NumberFormatException for a number outside the int range. */
  function IntAt(input: seq<Token>, p: nat): (r: Result<int>)
    ensures r.Ok? <==> p < |input| && input[p].Number? && -0x8000_0000 <= input[p].n <= IntMax
    ensures r.Ok? ==> input[p] == Number(r.value)
  {
    if p >= |input| then Err(IOError)
    else if !input[p].Number? then Err(IllegalState)
    else if -0x8000_0000 <= input[p].n <= IntMax then Ok(input[p].n)
    else Err(NumberFormat)
  }

  /** readStartSets after its state check: the "sets" name and the opening of its object; the new position. */
  function ReadSetsStart(input: seq<Token>, p: nat): (r: Result<nat>)
    ensures r.Ok? <==> p + 2 <= |input| && input[p..p + 2] == SetsStart()
    ensures r.Ok? ==> r.value == p + 2
  {
    match NextName(input, p)
    case Err(e) => Err(e)
    case Ok(n) =>
      match Expect(Some(n), Some("sets"))
      case Err(e) => Err(e)
      case Ok(_) =>
        match Consume(input, p + 1, BeginObject)
        case Err(e) => Err(e)
        case Ok(_) => Ok(p + 2)
  }

  /** nextSet after its state check: the code, the set, the check that the code is the set's own; the new position. */
  function ReadSetEntry(input: seq<Token>, p: nat): (r: Result<(ApiCard.Set, nat)>)
    ensures r.Ok? <==> p + 2 <= |input| && input[p].Name? && input[p + 1].SetValue? &&
                       input[p + 1].value.code == Some(input[p].name)
    ensures r.Ok? ==> r.value.0.code.Some? && input[p..p + 2] == SetEntry(r.value.0.code.value, r.value.0) && r.value.1 == p + 2
  {
    match NextName(input, p)
    case Err(e) => Err(e)
    case Ok(code) =>
      match SetAt(input, p + 1)
      case Err(e) => Err(e)
      case Ok(s) =>
        match Expect(Some(code), s.code)
        case Err(e) => Err(e)
        case Ok(_) => Ok((s, p + 2))
  }

  /** readStartCards up to the point where it enters the Cards state: "cards", the object, "count". */
  function ReadCardsHeader(input: seq<Token>, p: nat): (r: Result<nat>)
    ensures r.Ok? <==> p + 3 <= |input| && input[p] == Name("cards") && input[p + 1] == BeginObject && input[p + 2] == Name("count")
    ensures r.Ok? ==> r.value == p + 3
  {
    match NextName(input, p)
    case Err(e) => Err(e)
    case Ok(n) =>
      match Expect(Some(n), Some("cards"))
      case Err(e) => Err(e)
      case Ok(_) =>
        match Consume(input, p + 1, BeginObject)
        case Err(e) => Err(e)
        case Ok(_) =>
          match NextName(input, p + 2)
          case Err(e) => Err(e)
          case Ok(m) =>
            match Expect(Some(m), Some("count"))
            case Err(e) => Err(e)
            case Ok(_) => Ok(p + 3)
  }

  /** nextCard after its state check: the id text, the card, the check that the text is the card id's. */
  function ReadCardEntry(input: seq<Token>, p: nat, uuidText: ApiCard.Uuid -> string): (r: Result<(ApiCard.Card, nat)>)
    ensures r.Ok? <==> p + 2 <= |input| && input[p].Name? && input[p + 1].CardValue? &&
                       uuidText(input[p + 1].card.id) == input[p].name
    ensures r.Ok? ==> input[p..p + 2] == CardEntry(uuidText(r.value.0.id), r.value.0) && r.value.1 == p + 2
  {
    match NextName(input, p)
    case Err(e) => Err(e)
    case Ok(id) =>
      match CardAt(input, p + 1)
      case Err(e) => Err(e)
      case Ok(c) =>
        match Expect(Some(id), Some(uuidText(c.id)))
        case Err(e) => Err(e)
        case Ok(_) => Ok((c, p + 2))
  }

  // ---- Each read primitive undoes the matching write ------------------

  /** `writeStartSets` then `readStartSets`: the reader lands just past the two tokens. */
  lemma SetsStartRoundTrip(pre: seq<Token>, post: seq<Token>)
    ensures ReadSetsStart(pre + SetsStart() + post, |pre|) == Ok(|pre| + 2)
  {
    var input := pre + SetsStart() + post;
    assert input[|pre|..|pre| + 2] == SetsStart();
  }

  /** `writeSet` then `nextSet` gives back the same set, and `hasNextSet` holds before it. */
  lemma SetEntryRoundTrip(pre: seq<Token>, s: ApiCard.Set, post: seq<Token>)
    requires s.code.Some?
    ensures ReadSetEntry(pre + SetEntry(s.code.value, s) + post, |pre|) == Ok((s, |pre| + 2))
    ensures PeekName(pre + SetEntry(s.code.value, s) + post, |pre|) == Ok(true)
  {
    var input := pre + SetEntry(s.code.value, s) + post;
    assert input[|pre|] == Name(s.code.value) && input[|pre| + 1] == SetValue(s);
  }

  /** An entry whose key is not its set's code is refused with IOException. */
  lemma SetEntryMismatch(pre: seq<Token>, code: string, s: ApiCard.Set, post: seq<Token>)
    requires s.code != Some(code)
    ensures ReadSetEntry(pre + SetEntry(code, s) + post, |pre|) == Err(IOError)
  {
    var input := pre + SetEntry(code, s) + post;
    assert input[|pre|] == Name(code) && input[|pre| + 1] == SetValue(s);
  }

  /** After the last entry, the closing of the object answers `hasNextSet` / `hasNextCard` with false. */
  lemma NoEntryAtClose(pre: seq<Token>, post: seq<Token>)
    ensures PeekName(pre + [EndObject] + post, |pre|) == Ok(false)
    ensures Consume(pre + [EndObject] + post, |pre|, EndObject) == Ok(())
  {
    assert (pre + [EndObject] + post)[|pre|] == EndObject;
  }

  /** `writeStartCards(count)` then `readStartCards` gives back the count. */
  lemma CardsStartRoundTrip(pre: seq<Token>, count: int, post: seq<Token>)
    requires -0x8000_0000 <= count <= IntMax
    ensures ReadCardsHeader(pre + CardsStart(count) + post, |pre|) == Ok(|pre| + 3)
    ensures IntAt(pre + CardsStart(count) + post, |pre| + 3) == Ok(count)
  {
    var input := pre + CardsStart(count) + post;
    assert input[|pre|] == Name("cards") && input[|pre| + 2] == Name("count");
    assert input[|pre| + 3] == Number(count);
  }

  /** `writeCard` then `nextCard` gives back the same card. */
  lemma CardEntryRoundTrip(pre: seq<Token>, c: ApiCard.Card, post: seq<Token>, uuidText: ApiCard.Uuid -> string)
    ensures ReadCardEntry(pre + CardEntry(uuidText(c.id), c) + post, |pre|, uuidText) == Ok((c, |pre| + 2))
    ensures PeekName(pre + CardEntry(uuidText(c.id), c) + post, |pre|) == Ok(true)
  {
    var input := pre + CardEntry(uuidText(c.id), c) + post;
    assert input[|pre|] == Name(uuidText(c.id)) && input[|pre| + 1] == CardValue(c);
  }

  /** Json.java's serde: one writer and one reader, each with its own protocol state. */
  class Json {
    /** The tokens written to the current (or last) output file. */
    var output: seq<Token>
    /** The tokens of the file being read, and the reader's position in them. */
    var input: seq<Token>
    var pos: nat
    var readState: State
    var writeState: State
    /** UUID.toString, the key a card is written under. */
    const uuidText: ApiCard.Uuid -> string

    predicate Valid()
      reads this
    {
      pos <= |input|
    }

    /** A new serde reads and writes nothing. */
    constructor(uuidText: ApiCard.Uuid -> string)
      ensures Valid()
      ensures readState == Inactive && writeState == Inactive
      ensures output == [] && input == [] && pos == 0
      ensures this.uuidText == uuidText
    {
      this.uuidText := uuidText;
      output := [];
      input := [];
      pos := 0;
      readState := Inactive;
      writeState := Inactive;
    }

    function Type(): (r: Implementation)
      ensures r == Json
    {
      Json
    }

    twostate predicate ReaderUnchanged()
      reads this
    {
      input == old(input) && pos == old(pos) && readState == old(readState)
    }

    twostate predicate WriterUnchanged()
      reads this
    {
      output == old(output) && writeState == old(writeState)
    }

    // ---- Writing ----------------------------------------------------

    /**
     * startWriting: a fresh file holding the opening of the document.  A
     * writer left open by an earlier session (the state is not Inactive) is
     * closed first, and closing a JsonWriter whose document is incomplete
     * throws IOException, so nothing changes then.
     */
    method StartWriting() returns (r: Result<()>)
      modifies this
      ensures r.Ok? <==> old(writeState) == Inactive
      ensures r.Err? ==> r == Err(IOError) && WriterUnchanged()
      ensures r.Ok? ==> Next(old(writeState), Start) == Some(writeState) && output == [BeginObject]
      ensures ReaderUnchanged()
    {
      if writeState != Inactive {
        return Err(IOError);
      }
      output := [BeginObject];
      writeState := Header;
      r := Ok(());
    }

    /** writeStartSets: the count is not written. */
    method WriteStartSets(count: int) returns (r: Result<()>)
      modifies this
      ensures Next(old(writeState), StartSets).None? <==> r == Err(IllegalState)
      ensures r.Err? ==> WriterUnchanged()
      ensures r.Ok? ==> Next(old(writeState), StartSets) == Some(writeState) && output == old(output) + SetsStart()
      ensures ReaderUnchanged()
    {
      if writeState != Header {
        return Err(IllegalState);
      }
      output := output + SetsStart();
      writeState := Sets;
      r := Ok(());
    }

    /** writeSet: the set under its code; a null code is refused by JsonWriter.name. */
    method WriteSet(s: ApiCard.Set) returns (r: Result<()>)
      modifies this
      ensures Next(old(writeState), InSets).None? ==> r == Err(IllegalState)
      ensures Next(old(writeState), InSets).Some? && s.code.None? ==> r == Err(NullPointer)
      ensures r.Ok? <==> Next(old(writeState), InSets).Some? && s.code.Some?
      ensures r.Err? ==> WriterUnchanged()
      ensures r.Ok? ==> writeState == Sets && output == old(output) + SetEntry(s.code.value, s)
      ensures ReaderUnchanged()
    {
      if writeState != Sets {
        return Err(IllegalState);
      }
      if s.code.None? {
        return Err(NullPointer);
      }
      output := output + SetEntry(s.code.value, s);
      r := Ok(());
    }

    /** writeEndSets: closes the sets object and stays in the Sets state. */
    method WriteEndSets() returns (r: Result<()>)
      modifies this
      ensures Next(old(writeState), InSets).None? <==> r == Err(IllegalState)
      ensures r.Err? ==> WriterUnchanged()
      ensures r.Ok? ==> writeState == Sets && output == old(output) + [EndObject]
      ensures ReaderUnchanged()
    {
      if writeState != Sets {
        return Err(IllegalState);
      }
      output := output + [EndObject];
      r := Ok(());
    }

    /** writeStartCards: the "cards" object opens with the count. */
    method WriteStartCards(count: int) returns (r: Result<()>)
      modifies this
      ensures Next(old(writeState), StartCards).None? <==> r == Err(IllegalState)
      ensures r.Err? ==> WriterUnchanged()
      ensures r.Ok? ==> Next(old(writeState), StartCards) == Some(writeState) && output == old(output) + CardsStart(count)
      ensures ReaderUnchanged()
    {
      if writeState != Sets {
        return Err(IllegalState);
      }
      output := output + CardsStart(count);
      writeState := Cards;
      r := Ok(());
    }

    /** writeCard: the card under the text of its id. */
    method WriteCard(c: ApiCard.Card) returns (r: Result<()>)
      modifies this
      ensures Next(old(writeState), InCards).None? <==> r == Err(IllegalState)
      ensures r.Err? ==> WriterUnchanged()
      ensures r.Ok? ==> writeState == Cards && output == old(output) + CardEntry(uuidText(c.id), c)
      ensures ReaderUnchanged()
    {
      if writeState != Cards {
        return Err(IllegalState);
      }
      output := output + CardEntry(uuidText(c.id), c);
      r := Ok(());
    }

    /** writeEndCards: closes the cards object. */
    method WriteEndCards() returns (r: Result<()>)
      modifies this
      ensures Next(old(writeState), EndCards).None? <==> r == Err(IllegalState)
      ensures r.Err? ==> WriterUnchanged()
      ensures r.Ok? ==> Next(old(writeState), EndCards) == Some(writeState) && output == old(output) + [EndObject]
      ensures ReaderUnchanged()
    {
      if writeState != Cards {
        return Err(IllegalState);
      }
      output := output + [EndObject];
      writeState := Footer;
      r := Ok(());
    }

    /** endWriting: closes the document and the file. */
    method EndWriting() returns (r: Result<()>)
      modifies this
      ensures Next(old(writeState), End).None? <==> r == Err(IllegalState)
      ensures r.Err? ==> WriterUnchanged()
      ensures r.Ok? ==> Next(old(writeState), End) == Some(writeState) && output == old(output) + [EndObject]
      ensures ReaderUnchanged()
    {
      if writeState != Footer {
        return Err(IllegalState);
      }
      output := output + [EndObject];
      writeState := Inactive;
      r := Ok(());
    }

    // ---- Reading ----------------------------------------------------

    /** startReading: opens the file and the document; the state moves only once the opening is read. */
    method StartReading(file: seq<Token>) returns (r: Result<()>)
      modifies this
      ensures Valid() && input == file
      ensures r == Consume(file, 0, BeginObject)
      ensures r.Ok? ==> Next(old(readState), Start) == Some(readState) && pos == 1
      ensures r.Err? ==> readState == old(readState)
      ensures WriterUnchanged()
    {
      input := file;
      pos := 0;
      r := Consume(input, 0, BeginObject);
      if r.Ok? {
        pos := 1;
        readState := Header;
      }
    }

    /** readStartSets: expects the "sets" name and opens its object. */
    method ReadStartSets() returns (r: Result<()>)
      requires Valid()
      modifies this
      ensures Valid() && input == old(input)
      ensures Next(old(readState), StartSets).None? ==> r == Err(IllegalState) && ReaderUnchanged()
      ensures old(readState) == Header ==> r.Ok? == ReadSetsStart(input, old(pos)).Ok?
      ensures r.Ok? ==> Next(old(readState), StartSets) == Some(readState) && pos == old(pos) + 2
      ensures r.Err? ==> readState == old(readState)
      ensures WriterUnchanged()
    {
      if readState != Header {
        return Err(IllegalState);
      }
      var d := ReadSetsStart(input, pos);
      if d.Err? {
        return Err(d.error);
      }
      pos := d.value;
      readState := Sets;
      r := Ok(());
    }

    /** hasNextSet: whether the next token is an entry name. */
    method HasNextSet() returns (r: Result<bool>)
      requires Valid()
      ensures Next(readState, InSets).None? ==> r == Err(IllegalState)
      ensures readState == Sets ==> r == PeekName(input, pos)
    {
      if readState != Sets {
        return Err(IllegalState);
      }
      r := PeekName(input, pos);
    }

    /** nextSet: reads one entry and checks its key against the set's code. */
    method NextSet() returns (r: Result<ApiCard.Set>)
      requires Valid()
      modifies this
      ensures Valid() && input == old(input) && readState == old(readState)
      ensures Next(old(readState), InSets).None? ==> r == Err(IllegalState) && pos == old(pos)
      ensures old(readState) == Sets ==> r.Ok? == ReadSetEntry(input, old(pos)).Ok?
      ensures r.Ok? ==> pos == old(pos) + 2 && r.value.code.Some? && input[old(pos)..pos] == SetEntry(r.value.code.value, r.value)
      ensures WriterUnchanged()
    {
      if readState != Sets {
        return Err(IllegalState);
      }
      var d := ReadSetEntry(input, pos);
      if d.Err? {
        return Err(d.error);
      }
      pos := d.value.1;
      r := Ok(d.value.0);
    }

    /** readEndSets: closes the sets object and stays in the Sets state. */
    method ReadEndSets() returns (r: Result<()>)
      requires Valid()
      modifies this
      ensures Valid() && input == old(input) && readState == old(readState)
      ensures Next(old(readState), InSets).None? ==> r == Err(IllegalState) && pos == old(pos)
      ensures old(readState) == Sets ==> r == Consume(input, old(pos), EndObject)
      ensures r.Ok? ==> pos == old(pos) + 1
      ensures WriterUnchanged()
    {
      if readState != Sets {
        return Err(IllegalState);
      }
      r := Consume(input, pos, EndObject);
      if r.Ok? {
        pos := pos + 1;
      }
    }

    /**
     * readStartCards: expects "cards", opens its object and expects "count";
     * the state is Cards before the count itself is read.
     */
    method ReadStartCards() returns (r: Result<int>)
      requires Valid()
      modifies this
      ensures Valid() && input == old(input)
      ensures Next(old(readState), StartCards).None? ==> r == Err(IllegalState) && ReaderUnchanged()
      ensures old(readState) == Sets && ReadCardsHeader(input, old(pos)).Ok? ==>
                readState == Cards && r == IntAt(input, old(pos) + 3)
      ensures old(readState) == Sets && ReadCardsHeader(input, old(pos)).Err? ==> r.Err? && readState == Sets
      ensures r.Ok? ==> Next(old(readState), StartCards) == Some(readState) && pos == old(pos) + 4
      ensures WriterUnchanged()
    {
      if readState != Sets {
        return Err(IllegalState);
      }
      var d := ReadCardsHeader(input, pos);
      if d.Err? {
        return Err(d.error);
      }
      pos := d.value;
      readState := Cards;
      r := IntAt(input, pos);
      if r.Ok? {
        pos := pos + 1;
      }
    }

    /** hasNextCard: whether the next token is an entry name. */
    method HasNextCard() returns (r: Result<bool>)
      requires Valid()
      ensures Next(readState, InCards).None? ==> r == Err(IllegalState)
      ensures readState == Cards ==> r == PeekName(input, pos)
    {
      if readState != Cards {
        return Err(IllegalState);
      }
      r := PeekName(input, pos);
    }

    /** nextCard: reads one entry and checks its key against the card's id. */
    method NextCard() returns (r: Result<ApiCard.Card>)
      requires Valid()
      modifies this
      ensures Valid() && input == old(input) && readState == old(readState)
      ensures Next(old(readState), InCards).None? ==> r == Err(IllegalState) && pos == old(pos)
      ensures old(readState) == Cards ==> r.Ok? == ReadCardEntry(input, old(pos), uuidText).Ok?
      ensures r.Ok? ==> pos == old(pos) + 2 && input[old(pos)..pos] == CardEntry(uuidText(r.value.id), r.value)
      ensures WriterUnchanged()
    {
      if readState != Cards {
        return Err(IllegalState);
      }
      var d := ReadCardEntry(input, pos, uuidText);
      if d.Err? {
        return Err(d.error);
      }
      pos := d.value.1;
      r := Ok(d.value.0);
    }

    /** readEndCards: closes the cards object. */
    method ReadEndCards() returns (r: Result<()>)
      requires Valid()
      modifies this
      ensures Valid() && input == old(input)
      ensures Next(old(readState), EndCards).None? ==> r == Err(IllegalState) && ReaderUnchanged()
      ensures old(readState) == Cards ==> r == Consume(input, old(pos), EndObject)
      ensures r.Ok? ==> Next(old(readState), EndCards) == Some(readState) && pos == old(pos) + 1
      ensures r.Err? ==> readState == old(readState)
      ensures WriterUnchanged()
    {
      if readState != Cards {
        return Err(IllegalState);
      }
      r := Consume(input, pos, EndObject);
      if r.Ok? {
        pos := pos + 1;
        readState := Footer;
      }
    }

    /** endReading: closes the document and the file. */
    method EndReading() returns (r: Result<()>)
      requires Valid()
      modifies this
      ensures Valid() && input == old(input)
      ensures Next(old(readState), End).None? ==> r == Err(IllegalState) && ReaderUnchanged()
      ensures old(readState) == Footer ==> r == Consume(input, old(pos), EndObject)
      ensures r.Ok? ==> Next(old(readState), End) == Some(readState) && pos == old(pos) + 1
      ensures r.Err? ==> readState == old(readState)
      ensures WriterUnchanged()
    {
      if readState != Footer {
        return Err(IllegalState);
      }
      r := Consume(input, pos, EndObject);
      if r.Ok? {
        pos := pos + 1;
        readState := Inactive;
      }
    }
  }
}
