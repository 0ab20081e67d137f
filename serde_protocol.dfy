/**
 * serde/ScryfallSerde.java: the choice of on-disk format, the protocol
 * states every format walks through, and the `expect` check.
 *
 * A writer goes Inactive, Header, Sets, Cards, Footer and back to Inactive;
 * a reader mirrors it.  Each format checks the state at the start of every
 * call; the transition each call makes is stated once here, by the kind of
 * step the call is.
 */
module SerdeProtocol {
  import opened Base

  /** ScryfallSerde.Implementation. */
  datatype Implementation = Json | MessagePack

  function Extension(i: Implementation): string
  {
    match i
    case Json => ".json.gz"
    case MessagePack => ".msgpack.gz"
  }

  /** ScryfallSerde.State. */
  datatype State = Inactive | Header | Sets | Cards | Footer

  /** ScryfallSerde.expect: normal return exactly when Objects.equals(input, expected), IOException otherwise. */
  function Expect<T(==)>(input: Option<T>, expected: Option<T>): (r: Result<()>)
    ensures r.Ok? <==> input == expected
    ensures r.Err? ==> r.error == IOError
  {
    if input == expected then Ok(()) else Err(IOError)
  }

  /** The kind of step a protocol call makes. */
  datatype Step =
    | Start        // startWriting / startReading: open a file
    | StartSets    // writeStartSets / readStartSets
    | InSets       // writeSet, writeEndSets / hasNextSet, nextSet, readEndSets
    | StartCards   // writeStartCards / readStartCards
    | InCards      // writeCard / hasNextCard, nextCard
    | EndCards     // writeEndCards / readEndCards
    | End          // endWriting / endReading

  /** The state a call of this kind requires, or None when it accepts any state. */
  function Requires(k: Step): Option<State>
  {
    match k
    case Start => None
    case StartSets => Some(Header)
    case InSets => Some(Sets)
    case StartCards => Some(Sets)
    case InCards => Some(Cards)
    case EndCards => Some(Cards)
    case End => Some(Footer)
  }

  /** The state after a successful call of this kind. */
  function Enters(k: Step, s: State): State
  {
    match k
    case Start => Header
    case StartSets => Sets
    case InSets => s
    case StartCards => Cards
    case InCards => s
    case EndCards => Footer
    case End => Inactive
  }

  /** One step: None when the state check throws IllegalStateException. */
  function Next(s: State, k: Step): Option<State>
  {
    if Requires(k).Some? && Requires(k).value != s then None else Some(Enters(k, s))
  }

  /** A run of successful steps from s, or None at the first rejected one. */
  function Run(s: State, ks: seq<Step>): Option<State>
    decreases |ks|
  {
    if ks == [] then Some(s)
    else match Next(s, ks[0])
      case None => None
      case Some(t) => Run(t, ks[1..])
  }

  /** The rest of a session once the cards have started: cards, then the end of cards and the end of the file. */
  predicate CardsTail(ks: seq<Step>)
  {
    |ks| >= 2 && ks[|ks| - 2] == EndCards && ks[|ks| - 1] == End &&
    forall i :: 0 <= i < |ks| - 2 ==> ks[i] == InCards
  }

  /** The rest of a session in the Sets state: set steps, the start of the cards, then a cards tail. */
  predicate SetsTail(ks: seq<Step>, c: nat)
  {
    c < |ks| && ks[c] == StartCards && (forall i :: 0 <= i < c ==> ks[i] == InSets) && CardsTail(ks[c + 1..])
  }

  /**
   * A whole session: open, start the sets, set steps, start the cards, card
   * steps, end the cards, end the file.
   */
  ghost predicate Session(ks: seq<Step>)
  {
    |ks| >= 2 && ks[0] == Start && ks[1] == StartSets && exists c: nat :: SetsTail(ks[2..], c)
  }

  /** Without another open, no call is accepted once the file is closed. */
  lemma {:induction false} InactiveRejects(ks: seq<Step>)
    requires Start !in ks
    ensures Run(Inactive, ks) == if ks == [] then Some(Inactive) else None
  {
  }

  /** From the Footer state, only a lone end of file returns to Inactive. */
  lemma FooterRun(ks: seq<Step>)
    requires Start !in ks
    ensures Run(Footer, ks) == Some(Inactive) <==> ks == [End]
  {
    if ks != [] {
      assert ks[1..] == [] || ks[1..][0] == ks[1];
      InactiveRejects(ks[1..]);
      assert Start !in ks[1..];
    }
  }

  /** From the Cards state a run returns to Inactive exactly on a cards tail. */
  lemma {:induction false} CardsRun(ks: seq<Step>)
    requires Start !in ks
    ensures Run(Cards, ks) == Some(Inactive) <==> CardsTail(ks)
  {
    if ks != [] {
      var t := ks[1..];
      assert Start !in t;
      if ks[0] == InCards {
        CardsRun(t);
        if CardsTail(t) {
          assert forall i :: 0 <= i < |ks| - 2 ==> ks[i] == if i == 0 then InCards else t[i - 1];
        }
        if CardsTail(ks) {
          assert |t| >= 2;
          assert forall i :: 0 <= i < |t| - 2 ==> t[i] == ks[i + 1];
        }
      } else if ks[0] == EndCards {
        FooterRun(t);
        if t == [End] { assert ks == [EndCards, End]; }
        if CardsTail(ks) { assert |ks| == 2; }
      }
    }
  }

  /** From the Sets state a run returns to Inactive exactly on a sets tail. */
  lemma {:induction false} SetsRun(ks: seq<Step>)
    requires Start !in ks
    ensures Run(Sets, ks) == Some(Inactive) <==> exists c: nat :: SetsTail(ks, c)
  {
    if ks != [] {
      var t := ks[1..];
      assert Start !in t;
      if ks[0] == InSets {
        SetsRun(t);
        if exists c: nat :: SetsTail(t, c) {
          var c: nat :| SetsTail(t, c);
          assert ks[c + 2..] == t[c + 1..];
          assert SetsTail(ks, c + 1);
        }
        if exists c: nat :: SetsTail(ks, c) {
          var c: nat :| SetsTail(ks, c);
          assert c != 0;
          assert t[c..] == ks[c + 1..];
          assert SetsTail(t, c - 1);
        }
      } else if ks[0] == StartCards {
        CardsRun(t);
        if CardsTail(t) { assert SetsTail(ks, 0); }
        if exists c: nat :: SetsTail(ks, c) {
          var c: nat :| SetsTail(ks, c);
          assert c == 0;
        }
      }
    }
  }

  /**
   * The protocol language: a sequence of calls that opens a file once, at
   * its start, is accepted and ends Inactive exactly when it is a session.
   */
  lemma ProtocolLanguage(ks: seq<Step>)
    requires |ks| > 0 && ks[0] == Start && Start !in ks[1..]
    ensures Run(Inactive, ks) == Some(Inactive) <==> Session(ks)
  {
    var t := ks[1..];
    if t != [] {
      assert Start !in t[1..];
      if t[0] == StartSets {
        SetsRun(t[1..]);
        assert t[1..] == ks[2..];
      }
    }
  }
}
