/**
 * serde/MessagePack.java: the gzipped MessagePack data file.  The root is a
 * two-entry map: "sets" (a map from set code to set) and "cards" (a map
 * from card id, as two longs, to card).  Map sizes are written up front and
 * the reader counts entries down; the stream is modelled as a sequence of
 * msgpack values, a whole set or card being one value.
 */
module MessagePackSerde {
  import opened Base
  import opened SerdeProtocol
  import ApiCard
  import ApiEnum

  /** The msgpack values the serde packs and unpacks at the top level. */
  datatype Token =
    | MapHeader(size: nat)
    | Str(text: string)
    | Long(bits: ApiCard.Int64)
    | Nil
    | SetObj(value: ApiCard.Set)
    | CardObj(card: ApiCard.Card)

  // ---- Value encodings of the reflection layer -----------------------

  /** A UUID is packed as its most significant bits, then its least significant bits. */
  function PackUuid(u: ApiCard.Uuid): seq<Token>
  {
    [Long(u.msb), Long(u.lsb)]
  }

  /** An ApiEnum constant is packed as its serialised form, null as nil. */
  function PackEnum<T>(ser: T -> string, e: Option<T>): Token
  {
    if e.Some? then Str(ser(e.value)) else Nil
  }

  /** An ApiEnum is unpacked through Serialization.orUnrecognized; nil is null. */
  function UnpackEnum<T>(values: seq<T>, ser: T -> string, t: Token): (r: Result<Option<T>>)
    ensures t.Nil? ==> r == Ok(None)
    ensures !t.Nil? && !t.Str? ==> r == Err(MessagePackError)
  {
    if t.Nil? then Ok(None)
    else if t.Str? then ApiEnum.OrUnrecognized(values, ser, t.text)
    else Err(MessagePackError)
  }

  /** An enum constant packed and unpacked comes back as itself, null as null. */
  lemma EnumRoundTrip<T>(values: seq<T>, ser: T -> string, e: Option<T>)
    requires ApiEnum.DistinctKeys(values, ser)
    requires e.Some? ==> e.value in values
    ensures UnpackEnum(values, ser, PackEnum(ser, e)) == Ok(e)
  {
    if e.Some? {
      var i :| 0 <= i < |values| && values[i] == e.value;
      ApiEnum.OrUnrecognizedMeaning(values, ser, ser(e.value));
      assert ApiEnum.Key(ser, values[i]) == Lower(ser(e.value));
    }
  }

  // ---- The unpacker primitives ----------------------------------------

  /**
   * unpackMapHeader: the msgpack library throws its own runtime exception
   * for another value, a short stream, or a size beyond the int range.
   */
  function UnpackMapHeader(input: seq<Token>, p: nat): (r: Result<int>)
    ensures r.Ok? <==> p < |input| && input[p].MapHeader? && input[p].size <= IntMax
    ensures r.Ok? ==> input[p].size == r.value
    ensures r.Err? ==> r.error == MessagePackError
  {
    if p < |input| && input[p].MapHeader? && input[p].size <= IntMax then Ok(input[p].size)
    else Err(MessagePackError)
  }

  function UnpackString(input: seq<Token>, p: nat): (r: Result<string>)
    ensures r.Ok? <==> p < |input| && input[p].Str?
    ensures r.Ok? ==> input[p] == Str(r.value)
    ensures r.Err? ==> r.error == MessagePackError
  {
    if p < |input| && input[p].Str? then Ok(input[p].text) else Err(MessagePackError)
  }

  function UnpackLong(input: seq<Token>, p: nat): (r: Result<ApiCard.Int64>)
    ensures r.Ok? <==> p < |input| && input[p].Long?
    ensures r.Ok? ==> input[p] == Long(r.value)
    ensures r.Err? ==> r.error == MessagePackError
  {
    if p < |input| && input[p].Long? then Ok(input[p].bits) else Err(MessagePackError)
  }

  /** unpackApiObject for a set: any other value fails at its map header. */
  function UnpackSet(input: seq<Token>, p: nat): (r: Result<ApiCard.Set>)
    ensures r.Ok? <==> p < |input| && input[p].SetObj?
    ensures r.Ok? ==> input[p] == SetObj(r.value)
  {
    if p < |input| && input[p].SetObj? then Ok(input[p].value) else Err(MessagePackError)
  }

  function UnpackCard(input: seq<Token>, p: nat): (r: Result<ApiCard.Card>)
    ensures r.Ok? <==> p < |input| && input[p].CardObj?
    ensures r.Ok? ==> input[p] == CardObj(r.value)
  {
    if p < |input| && input[p].CardObj? then Ok(input[p].card) else Err(MessagePackError)
  }

  /** A UUID read back from two longs. */
  function UnpackUuid(input: seq<Token>, p: nat): (r: Result<ApiCard.Uuid>)
    ensures r.Ok? <==> p + 2 <= |input| && input[p].Long? && input[p + 1].Long?
    ensures r.Ok? ==> input[p..p + 2] == PackUuid(r.value)
  {
    match UnpackLong(input, p)
    case Err(e) => Err(e)
    case Ok(msb) =>
      match UnpackLong(input, p + 1)
      case Err(e) => Err(e)
      case Ok(lsb) => Ok(ApiCard.Uuid(msb, lsb))
  }

  /** A UUID packed and unpacked is the same UUID. */
  lemma UuidRoundTrip(pre: seq<Token>, u: ApiCard.Uuid, post: seq<Token>)
    ensures UnpackUuid(pre + PackUuid(u) + post, |pre|) == Ok(u)
  {
    var input := pre + PackUuid(u) + post;
    assert input[|pre|] == Long(u.msb) && input[|pre| + 1] == Long(u.lsb);
  }

  // ---- What each write call appends ----------------------------------

  function SetEntry(code: string, s: ApiCard.Set): seq<Token> { [Str(code), SetObj(s)] }
  function CardEntry(c: ApiCard.Card): seq<Token> { PackUuid(c.id) + [CardObj(c)] }

  // ---- The reads behind each read call --------------------------------

  /** readStartSets after its state check: the "sets" key, then the size of the sets map. */
  function ReadSetsStart(input: seq<Token>, p: nat): (r: Result<int>)
    ensures r.Ok? <==> p + 2 <= |input| && input[p] == Str("sets") && input[p + 1].MapHeader? &&
                       input[p + 1].size <= IntMax
    ensures r.Ok? ==> input[p + 1].size == r.value
  {
    match UnpackString(input, p)
    case Err(e) => Err(e)
    case Ok(key) =>
      match Expect(Some(key), Some("sets"))
      case Err(e) => Err(e)
      case Ok(_) => UnpackMapHeader(input, p + 1)
  }

  /** readStartCards after its state check: the "cards" key, then the size of the cards map. */
  function ReadCardsStart(input: seq<Token>, p: nat): (r: Result<int>)
    ensures r.Ok? <==> p + 2 <= |input| && input[p] == Str("cards") && input[p + 1].MapHeader? &&
                       input[p + 1].size <= IntMax
    ensures r.Ok? ==> input[p + 1].size == r.value
  {
    match UnpackString(input, p)
    case Err(e) => Err(e)
    case Ok(key) =>
      match Expect(Some(key), Some("cards"))
      case Err(e) => Err(e)
      case Ok(_) => UnpackMapHeader(input, p + 1)
  }

  /** nextSet after its state check: the code, the set, the check that the code is the set's own. */
  function ReadSetEntry(input: seq<Token>, p: nat): (r: Result<ApiCard.Set>)
    ensures r.Ok? <==> p + 2 <= |input| && input[p].Str? && input[p + 1].SetObj? &&
                       input[p + 1].value.code == Some(input[p].text)
    ensures r.Ok? ==> r.value.code.Some? && input[p..p + 2] == SetEntry(r.value.code.value, r.value)
  {
    match UnpackString(input, p)
    case Err(e) => Err(e)
    case Ok(code) =>
      match UnpackSet(input, p + 1)
      case Err(e) => Err(e)
      case Ok(s) =>
        match Expect(Some(code), s.code)
        case Err(e) => Err(e)
        case Ok(_) => Ok(s)
  }

  /** nextCard after its state check: the id, the card, the check that the id is the card's own. */
  function ReadCardEntry(input: seq<Token>, p: nat): (r: Result<ApiCard.Card>)
    ensures r.Ok? <==> p + 3 <= |input| && input[p].Long? && input[p + 1].Long? && input[p + 2].CardObj? &&
                       input[p + 2].card.id == ApiCard.Uuid(input[p].bits, input[p + 1].bits)
    ensures r.Ok? ==> input[p..p + 3] == CardEntry(r.value)
  {
    match UnpackUuid(input, p)
    case Err(e) => Err(e)
    case Ok(id) =>
      match UnpackCard(input, p + 2)
      case Err(e) => Err(e)
      case Ok(c) =>
        match Expect(Some(id), Some(c.id))
        case Err(e) => Err(e)
        case Ok(_) => Ok(c)
  }

  // ---- Each read undoes the matching write ------------------------------

  /** `startWriting` then `startReading`: the root map has exactly two entries. */
  lemma RootRoundTrip(post: seq<Token>)
    ensures UnpackMapHeader([MapHeader(2)] + post, 0) == Ok(2)
    ensures Expect(Some(2), Some(2)) == Ok(())
  {
  }

  /** `writeStartSets(count)` then `readStartSets` gives back the count. */
  lemma SetsStartRoundTrip(pre: seq<Token>, count: nat, post: seq<Token>)
    requires count <= IntMax
    ensures ReadSetsStart(pre + [Str("sets"), MapHeader(count)] + post, |pre|) == Ok(count)
  {
    var input := pre + [Str("sets"), MapHeader(count)] + post;
    assert input[|pre|] == Str("sets") && input[|pre| + 1] == MapHeader(count);
  }

  /** `writeStartCards(count)` then `readStartCards` gives back the count. */
  lemma CardsStartRoundTrip(pre: seq<Token>, count: nat, post: seq<Token>)
    requires count <= IntMax
    ensures ReadCardsStart(pre + [Str("cards"), MapHeader(count)] + post, |pre|) == Ok(count)
  {
    var input := pre + [Str("cards"), MapHeader(count)] + post;
    assert input[|pre|] == Str("cards") && input[|pre| + 1] == MapHeader(count);
  }

  /** `writeSet` then `nextSet` gives back the same set. */
  lemma SetEntryRoundTrip(pre: seq<Token>, s: ApiCard.Set, post: seq<Token>)
    requires s.code.Some?
    ensures ReadSetEntry(pre + SetEntry(s.code.value, s) + post, |pre|) == Ok(s)
  {
    var input := pre + SetEntry(s.code.value, s) + post;
    assert input[|pre|] == Str(s.code.value) && input[|pre| + 1] == SetObj(s);
  }

  /** An entry whose key is not its set's code is refused with IOException. */
  lemma SetEntryMismatch(pre: seq<Token>, code: string, s: ApiCard.Set, post: seq<Token>)
    requires s.code != Some(code)
    ensures ReadSetEntry(pre + SetEntry(code, s) + post, |pre|) == Err(IOError)
  {
    var input := pre + SetEntry(code, s) + post;
    assert input[|pre|] == Str(code) && input[|pre| + 1] == SetObj(s);
  }

  /** `writeCard` then `nextCard` gives back the same card, its id read back from the two longs. */
  lemma CardEntryRoundTrip(pre: seq<Token>, c: ApiCard.Card, post: seq<Token>)
    ensures ReadCardEntry(pre + CardEntry(c) + post, |pre|) == Ok(c)
  {
    var input := pre + CardEntry(c) + post;
    assert input[|pre|] == Long(c.id.msb) && input[|pre| + 1] == Long(c.id.lsb) && input[|pre| + 2] == CardObj(c);
  }

  /** A card stored under another id is refused with IOException. */
  lemma CardEntryMismatch(pre: seq<Token>, u: ApiCard.Uuid, c: ApiCard.Card, post: seq<Token>)
    requires c.id != u
    ensures ReadCardEntry(pre + PackUuid(u) + [CardObj(c)] + post, |pre|) == Err(IOError)
  {
    var input := pre + PackUuid(u) + [CardObj(c)] + post;
    assert input[|pre|] == Long(u.msb) && input[|pre| + 1] == Long(u.lsb) && input[|pre| + 2] == CardObj(c);
  }

  /** The entry counters: `hasNext` holds exactly while entries remain. */
  function HasNext(remaining: int): (r: bool)
    ensures r <==> remaining >= 1
  {
    remaining > 0
  }

  /** `--remaining` on a Java int. */
  function CountDown(remaining: int): (r: int)
    requires -0x8000_0000 <= remaining <= IntMax
    ensures remaining > -0x8000_0000 ==> r == remaining - 1
    ensures remaining == -0x8000_0000 ==> r == IntMax
  {
    Wrap32(remaining - 1)
  }

  /** The counter after k entries have been read from a map of n. */
  function CountDownTimes(n: int, k: nat): (r: int)
    requires -0x8000_0000 <= n <= IntMax
    ensures -0x8000_0000 <= r <= IntMax
  {
    if k == 0 then n else CountDown(CountDownTimes(n, k - 1))
  }

  /** Reading k of the n entries a map header announces leaves n - k to go. */
  lemma {:induction false} CountDownTimesAfter(n: nat, k: nat)
    requires n <= IntMax && k <= n
    ensures CountDownTimes(n, k) == n - k
  {
    if k > 0 {
      CountDownTimesAfter(n, k - 1);
    }
  }

  /** So `hasNext` holds before each of the n reads and not after them, when readEnd's check passes. */
  lemma CountDownReachesZero(n: nat)
    requires n <= IntMax
    ensures CountDownTimes(n, n) == 0 && !HasNext(CountDownTimes(n, n))
    ensures Expect(Some(CountDownTimes(n, n)), Some(0)) == Ok(())
    ensures forall k :: 0 <= k < n ==> HasNext(CountDownTimes(n, k))
  {
    CountDownTimesAfter(n, n);
    forall k | 0 <= k < n
      ensures HasNext(CountDownTimes(n, k))
    {
      CountDownTimesAfter(n, k);
    }
  }

  /** MessagePack.java's serde: one packer and one unpacker with their states and entry counters. */
  class MessagePack {
    /** The values packed into the current (or last) output file. */
    var output: seq<Token>
    /** The values of the file being read, and the unpacker's position in them. */
    var input: seq<Token>
    var pos: nat
    var readState: State
    var writeState: State
    var remainingSets: int
    var remainingCards: int

    predicate Valid()
      reads this
    {
      pos <= |input| &&
      -0x8000_0000 <= remainingSets <= IntMax && -0x8000_0000 <= remainingCards <= IntMax
    }

    /** A new serde: both states Inactive, both counters -1. */
    constructor()
      ensures Valid()
      ensures readState == Inactive && writeState == Inactive
      ensures remainingSets == -1 && remainingCards == -1
      ensures output == [] && input == [] && pos == 0
    {
      output := [];
      input := [];
      pos := 0;
      readState := Inactive;
      writeState := Inactive;
      remainingSets := -1;
      remainingCards := -1;
    }

    function Type(): (r: Implementation)
      ensures r == MessagePack
    {
      MessagePack
    }

    twostate predicate ReaderUnchanged()
      reads this
    {
      input == old(input) && pos == old(pos) && readState == old(readState) &&
      remainingSets == old(remainingSets) && remainingCards == old(remainingCards)
    }

    twostate predicate WriterUnchanged()
      reads this
    {
      output == old(output) && writeState == old(writeState)
    }

    // ---- Writing ----------------------------------------------------

    /** startWriting: a fresh file holding the root map's header of two entries. */
    method StartWriting() returns (r: Result<()>)
      modifies this
      ensures r.Ok? && Next(old(writeState), Start) == Some(writeState)
      ensures output == [MapHeader(2)]
      ensures ReaderUnchanged()
    {
      output := [MapHeader(2)];
      writeState := Header;
      r := Ok(());
    }

    /**
     * writeStartSets: the "sets" key and the announced size; packMapHeader
     * refuses a negative size after the key is already out.
     */
    method WriteStartSets(count: int) returns (r: Result<()>)
      modifies this
      ensures Next(old(writeState), StartSets).None? ==> r == Err(IllegalState) && WriterUnchanged()
      ensures old(writeState) == Header && count < 0 ==>
                r == Err(IllegalArgument) && writeState == Header && output == old(output) + [Str("sets")]
      ensures r.Ok? <==> old(writeState) == Header && count >= 0
      ensures r.Ok? ==> Next(old(writeState), StartSets) == Some(writeState) &&
                        output == old(output) + [Str("sets"), MapHeader(count)]
      ensures ReaderUnchanged()
    {
      if writeState != Header {
        return Err(IllegalState);
      }
      output := output + [Str("sets")];
      if count < 0 {
        return Err(IllegalArgument);
      }
      output := output + [MapHeader(count)];
      writeState := Sets;
      r := Ok(());
    }

    /** writeSet: the code, then the set; packString refuses a null code. */
    method WriteSet(s: ApiCard.Set) returns (r: Result<()>)
      modifies this
      ensures Next(old(writeState), InSets).None? ==> r == Err(IllegalState)
      ensures Next(old(writeState), InSets).Some? && s.code.None? ==> r == Err(NullPointer)
      ensures r.Ok? <==> Next(old(writeState), InSets).Some? && s.code.Some?
      ensures r.Err? ==> WriterUnchanged()
      ensures r.Ok? ==> writeState == Sets && output == old(output) + SetEntry(s.code.value, s)
      ensures ReaderUnchanged()
    {
      if writeState != Sets {
        return Err(IllegalState);
      }
      if s.code.None? {
        return Err(NullPointer);
      }
      output := output + SetEntry(s.code.value, s);
      r := Ok(());
    }

    /** writeEndSets: checks the state and writes nothing, the map being sized up front. */
    method WriteEndSets() returns (r: Result<()>)
      modifies this
      ensures Next(old(writeState), InSets).None? <==> r == Err(IllegalState)
      ensures WriterUnchanged()
      ensures ReaderUnchanged()
    {
      if writeState != Sets {
        return Err(IllegalState);
      }
      r := Ok(());
    }

    /** writeStartCards: the "cards" key and the announced size. */
    method WriteStartCards(count: int) returns (r: Result<()>)
      modifies this
      ensures Next(old(writeState), StartCards).None? ==> r == Err(IllegalState) && WriterUnchanged()
      ensures old(writeState) == Sets && count < 0 ==>
                r == Err(IllegalArgument) && writeState == Sets && output == old(output) + [Str("cards")]
      ensures r.Ok? <==> old(writeState) == Sets && count >= 0
      ensures r.Ok? ==> Next(old(writeState), StartCards) == Some(writeState) &&
                        output == old(output) + [Str("cards"), MapHeader(count)]
      ensures ReaderUnchanged()
    {
      if writeState != Sets {
        return Err(IllegalState);
      }
      output := output + [Str("cards")];
      if count < 0 {
        return Err(IllegalArgument);
      }
      output := output + [MapHeader(count)];
      writeState := Cards;
      r := Ok(());
    }

    /** writeCard: the id as two longs, then the card. */
    method WriteCard(c: ApiCard.Card) returns (r: Result<()>)
      modifies this
      ensures Next(old(writeState), InCards).None? <==> r == Err(IllegalState)
      ensures r.Err? ==> WriterUnchanged()
      ensures r.Ok? ==> writeState == Cards && output == old(output) + CardEntry(c)
      ensures ReaderUnchanged()
    {
      if writeState != Cards {
        return Err(IllegalState);
      }
      output := output + CardEntry(c);
      r := Ok(());
    }

    /** writeEndCards: writes nothing and moves to the footer. */
    method WriteEndCards() returns (r: Result<()>)
      modifies this
      ensures Next(old(writeState), EndCards).None? <==> r == Err(IllegalState)
      ensures r.Err? ==> WriterUnchanged()
      ensures r.Ok? ==> Next(old(writeState), EndCards) == Some(writeState) && output == old(output)
      ensures ReaderUnchanged()
    {
      if writeState != Cards {
        return Err(IllegalState);
      }
      writeState := Footer;
      r := Ok(());
    }

    /** endWriting: closes the file. */
    method EndWriting() returns (r: Result<()>)
      modifies this
      ensures Next(old(writeState), End).None? <==> r == Err(IllegalState)
      ensures r.Err? ==> WriterUnchanged()
      ensures r.Ok? ==> Next(old(writeState), End) == Some(writeState) && output == old(output)
      ensures ReaderUnchanged()
    {
      if writeState != Footer {
        return Err(IllegalState);
      }
      writeState := Inactive;
      r := Ok(());
    }

    // ---- Reading ----------------------------------------------------

    /** startReading: the root map must have exactly two entries; the counters are left as they were. */
    method StartReading(file: seq<Token>) returns (r: Result<()>)
      requires Valid()
      modifies this
      ensures Valid() && input == file
      ensures UnpackMapHeader(file, 0).Err? ==> r == Err(MessagePackError)
      ensures UnpackMapHeader(file, 0).Ok? ==> r == Expect(Some(UnpackMapHeader(file, 0).value), Some(2))
      ensures r.Ok? <==> |file| > 0 && file[0] == MapHeader(2)
      ensures r.Ok? ==> Next(old(readState), Start) == Some(readState) && pos == 1
      ensures r.Err? ==> readState == old(readState)
      ensures remainingSets == old(remainingSets) && remainingCards == old(remainingCards)
      ensures WriterUnchanged()
    {
      input := file;
      pos := 0;
      var len := UnpackMapHeader(input, 0);
      if len.Err? {
        return Err(len.error);
      }
      pos := 1;
      r := Expect(Some(len.value), Some(2));
      if r.Ok? {
        readState := Header;
      }
    }

    /** readStartSets: the "sets" key, then the size of the sets map becomes the set counter. */
    method ReadStartSets() returns (r: Result<()>)
      requires Valid()
      modifies this
      ensures Valid() && input == old(input) && remainingCards == old(remainingCards)
      ensures Next(old(readState), StartSets).None? ==> r == Err(IllegalState) && ReaderUnchanged()
      ensures old(readState) == Header ==> r.Ok? == ReadSetsStart(input, old(pos)).Ok?
      ensures r.Ok? ==> Next(old(readState), StartSets) == Some(readState) && pos == old(pos) + 2 &&
                        remainingSets == ReadSetsStart(input, old(pos)).value
      ensures r.Err? ==> readState == old(readState) && remainingSets == old(remainingSets)
      ensures WriterUnchanged()
    {
      if readState != Header {
        return Err(IllegalState);
      }
      var d := ReadSetsStart(input, pos);
      if d.Err? {
        return Err(d.error);
      }
      remainingSets := d.value;
      pos := pos + 2;
      readState := Sets;
      r := Ok(());
    }

    /** hasNextSet: whether the set counter is positive; nothing is read. */
    method HasNextSet() returns (r: Result<bool>)
      requires Valid()
      ensures Next(readState, InSets).None? ==> r == Err(IllegalState)
      ensures readState == Sets ==> r == Ok(HasNext(remainingSets))
    {
      if readState != Sets {
        return Err(IllegalState);
      }
      r := Ok(remainingSets > 0);
    }

    /** nextSet: reads one entry, checks its key against the set's code, and counts it off. */
    method NextSet() returns (r: Result<ApiCard.Set>)
      requires Valid()
      modifies this
      ensures Valid() && input == old(input) && readState == old(readState) && remainingCards == old(remainingCards)
      ensures Next(old(readState), InSets).None? ==> r == Err(IllegalState) && ReaderUnchanged()
      ensures old(readState) == Sets ==> r.Ok? == ReadSetEntry(input, old(pos)).Ok?
      ensures r.Ok? ==> pos == old(pos) + 2 && r.value.code.Some? &&
                        input[old(pos)..pos] == SetEntry(r.value.code.value, r.value) &&
                        remainingSets == CountDown(old(remainingSets))
      ensures r.Err? ==> remainingSets == old(remainingSets)
      ensures WriterUnchanged()
    {
      if readState != Sets {
        return Err(IllegalState);
      }
      var d := ReadSetEntry(input, pos);
      if d.Err? {
        return Err(d.error);
      }
      pos := pos + 2;
      remainingSets := CountDown(remainingSets);
      r := Ok(d.value);
    }

    /** readEndSets: every announced set must have been read; the counter resets and the state stays Sets. */
    method ReadEndSets() returns (r: Result<()>)
      requires Valid()
      modifies this
      ensures Valid() && input == old(input) && pos == old(pos) && readState == old(readState)
      ensures remainingCards == old(remainingCards)
      ensures Next(old(readState), InSets).None? ==> r == Err(IllegalState) && ReaderUnchanged()
      ensures old(readState) == Sets ==> r == Expect(Some(old(remainingSets)), Some(0))
      ensures remainingSets == if r.Ok? then -1 else old(remainingSets)
      ensures WriterUnchanged()
    {
      if readState != Sets {
        return Err(IllegalState);
      }
      r := Expect(Some(remainingSets), Some(0));
      if r.Ok? {
        remainingSets := -1;
      }
    }

    /** readStartCards: the "cards" key, then the size of the cards map is the card counter and the result. */
    method ReadStartCards() returns (r: Result<int>)
      requires Valid()
      modifies this
      ensures Valid() && input == old(input) && remainingSets == old(remainingSets)
      ensures Next(old(readState), StartCards).None? ==> r == Err(IllegalState) && ReaderUnchanged()
      ensures old(readState) == Sets ==> r == ReadCardsStart(input, old(pos))
      ensures r.Ok? ==> Next(old(readState), StartCards) == Some(readState) && pos == old(pos) + 2 &&
                        remainingCards == r.value
      ensures r.Err? ==> readState == old(readState) && remainingCards == old(remainingCards)
      ensures WriterUnchanged()
    {
      if readState != Sets {
        return Err(IllegalState);
      }
      r := ReadCardsStart(input, pos);
      if r.Err? {
        return;
      }
      remainingCards := r.value;
      pos := pos + 2;
      readState := Cards;
    }

    /** hasNextCard: whether the card counter is positive; nothing is read. */
    method HasNextCard() returns (r: Result<bool>)
      requires Valid()
      ensures Next(readState, InCards).None? ==> r == Err(IllegalState)
      ensures readState == Cards ==> r == Ok(HasNext(remainingCards))
    {
      if readState != Cards {
        return Err(IllegalState);
      }
      r := Ok(remainingCards > 0);
    }

    /** nextCard: reads the id and the card, checks that they agree, and counts the card off. */
    method NextCard() returns (r: Result<ApiCard.Card>)
      requires Valid()
      modifies this
      ensures Valid() && input == old(input) && readState == old(readState) && remainingSets == old(remainingSets)
      ensures Next(old(readState), InCards).None? ==> r == Err(IllegalState) && ReaderUnchanged()
      ensures old(readState) == Cards ==> r == ReadCardEntry(input, old(pos))
      ensures r.Ok? ==> pos == old(pos) + 3 && input[old(pos)..pos] == CardEntry(r.value) &&
                        remainingCards == CountDown(old(remainingCards))
      ensures r.Err? ==> remainingCards == old(remainingCards)
      ensures WriterUnchanged()
    {
      if readState != Cards {
        return Err(IllegalState);
      }
      r := ReadCardEntry(input, pos);
      if r.Err? {
        return;
      }
      pos := pos + 3;
      remainingCards := CountDown(remainingCards);
    }

    /** readEndCards: every announced card must have been read; the counter resets and the footer follows. */
    method ReadEndCards() returns (r: Result<()>)
      requires Valid()
      modifies this
      ensures Valid() && input == old(input) && pos == old(pos) && remainingSets == old(remainingSets)
      ensures Next(old(readState), EndCards).None? ==> r == Err(IllegalState) && ReaderUnchanged()
      ensures old(readState) == Cards ==> r == Expect(Some(old(remainingCards)), Some(0))
      ensures r.Ok? ==> Next(old(readState), EndCards) == Some(readState) && remainingCards == -1
      ensures r.Err? ==> readState == old(readState) && remainingCards == old(remainingCards)
      ensures WriterUnchanged()
    {
      if readState != Cards {
        return Err(IllegalState);
      }
      r := Expect(Some(remainingCards), Some(0));
      if r.Ok? {
        remainingCards := -1;
        readState := Footer;
      }
    }

    /** endReading: closes the file; nothing further is read. */
    method EndReading() returns (r: Result<()>)
      requires Valid()
      modifies this
      ensures Valid()
      ensures Next(old(readState), End).None? <==> r == Err(IllegalState)
      ensures r.Err? ==> ReaderUnchanged()
      ensures r.Ok? ==> Next(old(readState), End) == Some(readState)
      ensures input == old(input) && pos == old(pos)
      ensures remainingSets == old(remainingSets) && remainingCards == old(remainingCards)
      ensures WriterUnchanged()
    {
      if readState != Footer {
        return Err(IllegalState);
      }
      readState := Inactive;
      r := Ok(());
    }
  }
}
