/** The game formats of api/enums/GameFormat.java, their library formats and the name map. */
module GameFormatEnum {
  import opened Base
  import ApiEnum
  import LibMtg

  datatype GameFormat =
    | Standard | Modern | Legacy | Vintage | Commander | PauperCommander | Pauper | Penny
    | Duel | Future | Brawl | OldSchool | Oathbreaker | Pioneer | Historic | HistoricBrawl
    | Gladiator | Premodern | Predh | Alchemy | Explorer | Unrecognized

  /** The constant with the given ordinal. */
  function FromOrdinal(i: nat): GameFormat
    requires i < 22
  {
    if i < 11 then (if i < 6 then (if i == 0 then Standard else if i == 1 then Modern else if i == 2 then Legacy else if i == 3 then Vintage else if i == 4 then Commander else PauperCommander)
      else (if i == 6 then Pauper else if i == 7 then Penny else if i == 8 then Duel else if i == 9 then Future else Brawl))
      else (if i < 17 then (if i == 11 then OldSchool else if i == 12 then Oathbreaker else if i == 13 then Pioneer else if i == 14 then Historic else if i == 15 then HistoricBrawl else Gladiator)
      else (if i == 17 then Premodern else if i == 18 then Predh else if i == 19 then Alchemy else if i == 20 then Explorer else Unrecognized))
  }

  /** The constants by ordinal. */
  function ByOrdinal(): seq<GameFormat>
  {
    seq(22, i requires 0 <= i < 22 => FromOrdinal(i))
  }

  /** GameFormat.values(), in declaration order. */
  const Values: seq<GameFormat> := ByOrdinal()

  /** Enum.ordinal(). */
  function Ordinal(l: GameFormat): nat
  {
    match l
    case Standard => 0 case Modern => 1 case Legacy => 2 case Vintage => 3 case Commander => 4 case PauperCommander => 5 case Pauper => 6 case Penny => 7
    case Duel => 8 case Future => 9 case Brawl => 10 case OldSchool => 11 case Oathbreaker => 12 case Pioneer => 13 case Historic => 14 case HistoricBrawl => 15
    case Gladiator => 16 case Premodern => 17 case Predh => 18 case Alchemy => 19 case Explorer => 20 case Unrecognized => 21
  }

  /** Enum.name(). */
  function Name(l: GameFormat): string
  {
    match l
    case Standard => "Standard" case Modern => "Modern" case Legacy => "Legacy" case Vintage => "Vintage"
    case Commander => "Commander" case PauperCommander => "PauperCommander" case Pauper => "Pauper" case Penny => "Penny"
    case Duel => "Duel" case Future => "Future" case Brawl => "Brawl" case OldSchool => "OldSchool"
    case Oathbreaker => "Oathbreaker" case Pioneer => "Pioneer" case Historic => "Historic" case HistoricBrawl => "HistoricBrawl"
    case Gladiator => "Gladiator" case Premodern => "Premodern" case Predh => "Predh" case Alchemy => "Alchemy"
    case Explorer => "Explorer" case Unrecognized => "Unrecognized"
  }

  /** serialized(): the lowercased constant name. */
  function Serialized(l: GameFormat): string
  {
    Lower(Name(l))
  }

  /** The fingerprint (length, first, second and last character) of each constant's reverse-map key. */
  function KeyFingerprint(l: GameFormat): (nat, char, char, char)
  {
    match l
    case Standard => (8, 's', 't', 'd') case Modern => (6, 'm', 'o', 'n') case Legacy => (6, 'l', 'e', 'y')
    case Vintage => (7, 'v', 'i', 'e') case Commander => (9, 'c', 'o', 'r') case PauperCommander => (15, 'p', 'a', 'r')
    case Pauper => (6, 'p', 'a', 'r') case Penny => (5, 'p', 'e', 'y') case Duel => (4, 'd', 'u', 'l')
    case Future => (6, 'f', 'u', 'e') case Brawl => (5, 'b', 'r', 'l') case OldSchool => (9, 'o', 'l', 'l')
    case Oathbreaker => (11, 'o', 'a', 'r') case Pioneer => (7, 'p', 'i', 'r') case Historic => (8, 'h', 'i', 'c')
    case HistoricBrawl => (13, 'h', 'i', 'l') case Gladiator => (9, 'g', 'l', 'r') case Premodern => (9, 'p', 'r', 'n')
    case Predh => (5, 'p', 'r', 'h') case Alchemy => (7, 'a', 'l', 'y') case Explorer => (8, 'e', 'x', 'r')
    case Unrecognized => (12, 'u', 'n', 'd')
  }

  lemma OrdinalInverse(l: GameFormat)
    ensures Ordinal(l) < 22 && FromOrdinal(Ordinal(l)) == l
  {
  }

  lemma FromOrdinalInverse(i: nat)
    requires i < 22
    ensures Ordinal(FromOrdinal(i)) == i
  {
  }

  /** values() lists every constant, at its ordinal. */
  lemma ValuesAt(l: GameFormat)
    ensures |Values| == 22 && Values[Ordinal(l)] == l
  {
    OrdinalInverse(l);
  }

  /** values() lists no constant twice. */
  lemma ValuesDistinct()
    ensures forall i, j :: 0 <= i < j < |Values| ==> Values[i] != Values[j]
  {
    forall i, j | 0 <= i < j < |Values|
      ensures Values[i] != Values[j]
    {
      FromOrdinalInverse(i);
      FromOrdinalInverse(j);
    }
  }

  lemma KeyFingerprintOf(l: GameFormat)
    ensures Fingerprint(ApiEnum.Key(Serialized, l)) == KeyFingerprint(l)
  {
    LowerIdempotent(Name(l));
  }

  lemma KeyFingerprintInjective(a: GameFormat, b: GameFormat)
    ensures KeyFingerprint(a) == KeyFingerprint(b) ==> a == b
  {
  }

  /** Distinct constants have distinct reverse-map keys. */
  lemma KeyInjective(a: GameFormat, b: GameFormat)
    ensures ApiEnum.Key(Serialized, a) == ApiEnum.Key(Serialized, b) ==> a == b
  {
    KeyFingerprintOf(a);
    KeyFingerprintOf(b);
    KeyFingerprintInjective(a, b);
  }

  /** The lowercased serialised forms are pairwise distinct, so the reverse map and the adapter can be built. */
  lemma DistinctKeys()
    ensures ApiEnum.DistinctKeys(Values, Serialized)
    ensures ApiEnum.RevMap(Values, Serialized).Ok?
    ensures ApiEnum.MakeAdapter(Values, Serialized).Ok?
  {
    ValuesDistinct();
    forall a, b
      ensures ApiEnum.Key(Serialized, a) == ApiEnum.Key(Serialized, b) ==> a == b
    {
      KeyInjective(a, b);
    }
    ApiEnum.DistinctKeysOfInjective(Values, Serialized);
  }

  lemma NameHasNoUnderscore(l: GameFormat)
    ensures '_' !in Name(l)
  {
  }

  lemma KeyHasNoUnderscore(l: GameFormat)
    ensures '_' !in ApiEnum.Key(Serialized, l)
  {
    NameHasNoUnderscore(l);
    LowerKeepsUnderscores(Name(l));
    LowerKeepsUnderscores(Serialized(l));
  }

  lemma NoConstantHasKey(k: string)
    requires forall l :: ApiEnum.Key(Serialized, l) != k
    ensures forall i :: 0 <= i < |Values| ==> ApiEnum.Key(Serialized, Values[i]) != k
  {
  }

  /** Writing a constant and reading it back gives the same constant. */
  lemma RoundTrip(l: GameFormat)
    ensures ApiEnum.MakeAdapter(Values, Serialized).Ok?
    ensures ApiEnum.Read(ApiEnum.MakeAdapter(Values, Serialized).value, ApiEnum.Write(Serialized, Some(l))) == Ok(Some(l))
  {
    DistinctKeys();
    ValuesAt(l);
    KeyHasNoUnderscore(l);
    ApiEnum.ReadWriteRoundTrip(Values, Serialized, Some(l), []);
  }

  lemma UnrecognizedKey()
    ensures ApiEnum.Key(Serialized, Unrecognized) == "unrecognized"
  {
    LowerIdempotent(Name(Unrecognized));
  }

  /** Unrecognized provides the "unrecognized" key, so unknown names fall back to it. */
  lemma AdapterFallsBackToUnrecognized()
    ensures ApiEnum.MakeAdapter(Values, Serialized).Ok?
    ensures ApiEnum.MakeAdapter(Values, Serialized).value.unrecognized == Some(Unrecognized)
  {
    DistinctKeys();
    UnrecognizedKey();
    ValuesAt(Unrecognized);
    ApiEnum.AdapterEntry(Values, Serialized, 21);
  }

  /** A name that is no constant's key decodes to Unrecognized, through orUnrecognized and through the adapter. */
  lemma UnknownIsUnrecognized(name: string)
    requires forall l :: ApiEnum.Key(Serialized, l) != Lower(name)
    requires forall l :: ApiEnum.Key(Serialized, l) != ApiEnum.Normalise(name)
    ensures ApiEnum.OrUnrecognized(Values, Serialized, name) == Ok(Some(Unrecognized))
    ensures ApiEnum.MakeAdapter(Values, Serialized).Ok?
    ensures ApiEnum.Read(ApiEnum.MakeAdapter(Values, Serialized).value, ApiEnum.StringToken(name)) == Ok(Some(Unrecognized))
  {
    AdapterFallsBackToUnrecognized();
    NoConstantHasKey(Lower(name));
    NoConstantHasKey(ApiEnum.Normalise(name));
    ApiEnum.UnknownName(Values, Serialized, name);
  }

  /** A name or string whose normalised text is a constant's key decodes to that constant. */
  lemma Decodes(text: string, l: GameFormat)
    requires ApiEnum.Normalise(text) == ApiEnum.Key(Serialized, l)
    ensures ApiEnum.MakeAdapter(Values, Serialized).Ok?
    ensures ApiEnum.Read(ApiEnum.MakeAdapter(Values, Serialized).value, ApiEnum.StringToken(text)) == Ok(Some(l))
    ensures ApiEnum.Read(ApiEnum.MakeAdapter(Values, Serialized).value, ApiEnum.NameToken(text)) == Ok(Some(l))
  {
    DistinctKeys();
    ValuesAt(l);
    ApiEnum.ReadKnownText(Values, Serialized, text, Ordinal(l));
  }

  /** libMtgFormat: the library format passed to the constructor (null where there is none). */
  function LibFormat(f: GameFormat): Option<LibMtg.Format>
  {
    match f
    case Standard => Some(LibMtg.Standard) case Modern => Some(LibMtg.Modern)
    case Legacy => Some(LibMtg.Legacy) case Vintage => Some(LibMtg.Vintage)
    case Commander => Some(LibMtg.Commander) case PauperCommander => None
    case Pauper => Some(LibMtg.Pauper) case Penny => Some(LibMtg.Penny) case Duel => None
    case Future => Some(LibMtg.Future) case Brawl => Some(LibMtg.Brawl) case OldSchool => None
    case Oathbreaker => None case Pioneer => Some(LibMtg.Pioneer) case Historic => Some(LibMtg.Historic)
    case HistoricBrawl => None case Gladiator => None case Premodern => None case Predh => None
    case Alchemy => Some(LibMtg.Alchemy) case Explorer => Some(LibMtg.Explorer) case Unrecognized => None
  }

  /** The formats without a library counterpart. */
  lemma LibFormatNull(f: GameFormat)
    ensures LibFormat(f).None? <==> f in {PauperCommander, Duel, OldSchool, Oathbreaker, HistoricBrawl, Gladiator, Premodern, Predh, Unrecognized}
  {
  }

  /** Every other format maps to the library format of the same name. */
  lemma LibFormatSameName(f: GameFormat)
    ensures LibFormat(f).Some? ==> LibMtg.FormatName(LibFormat(f).value) == Name(f)
  {
  }

  /** createNameMap: every constant put under its serialised form, in declaration order. */
  function PutAll(formats: seq<GameFormat>): map<string, GameFormat>
  {
    if formats == [] then map[]
    else PutAll(formats[..|formats| - 1])[Serialized(formats[|formats| - 1]) := formats[|formats| - 1]]
  }

  /** nameMap, built once when the class is initialised. */
  const NameMap: map<string, GameFormat> := PutAll(Values)

  /** byName: a plain lookup of the exact name, null when absent. */
  function ByName(name: string): Option<GameFormat>
  {
    ApiEnum.Get(NameMap, name)
  }

  /** A key of PutAll is the serialised form of one of the formats put. */
  lemma {:induction false} PutAllKeys(formats: seq<GameFormat>, k: string)
    ensures k in PutAll(formats) ==> exists i :: 0 <= i < |formats| && Serialized(formats[i]) == k
    decreases |formats|
  {
    if formats != [] {
      var init := formats[..|formats| - 1];
      PutAllKeys(init, k);
      if k in PutAll(init) {
        var i :| 0 <= i < |init| && Serialized(init[i]) == k;
        assert formats[i] == init[i];
      }
    }
  }

  /** A format put later under no other format's name is found under its own name. */
  lemma {:induction false} PutAllFinds(formats: seq<GameFormat>, i: nat)
    requires i < |formats|
    requires forall j :: i < j < |formats| ==> Serialized(formats[j]) != Serialized(formats[i])
    ensures Serialized(formats[i]) in PutAll(formats) && PutAll(formats)[Serialized(formats[i])] == formats[i]
    decreases |formats|
  {
    if i < |formats| - 1 {
      var init := formats[..|formats| - 1];
      assert init[i] == formats[i];
      PutAllFinds(init, i);
    }
  }

  /** The serialised form is its own lowercase form, so it is the reverse-map key. */
  lemma SerializedIsKey(f: GameFormat)
    ensures Serialized(f) == ApiEnum.Key(Serialized, f)
  {
    LowerIdempotent(Name(f));
  }

  /** byName finds exactly the constant whose serialised form is the name. */
  lemma ByNameExactly(name: string, f: GameFormat)
    ensures ByName(name) == Some(f) <==> name == Serialized(f)
  {
    ValuesAt(f);
    ValuesDistinct();
    forall j | Ordinal(f) < j < |Values|
      ensures Serialized(Values[j]) != Serialized(f)
    {
      SerializedIsKey(f);
      SerializedIsKey(Values[j]);
      KeyInjective(f, Values[j]);
    }
    PutAllFinds(Values, Ordinal(f));
    if ByName(name) == Some(f) {
      PutAllKeys(Values, name);
      var i :| 0 <= i < |Values| && Serialized(Values[i]) == name;
      forall j | i < j < |Values|
        ensures Serialized(Values[j]) != Serialized(Values[i])
      {
        SerializedIsKey(Values[i]);
        SerializedIsKey(Values[j]);
        KeyInjective(Values[i], Values[j]);
      }
      PutAllFinds(Values, i);
    }
  }

  /** byName(f.serialized()) == f. */
  lemma ByNameInverse(f: GameFormat)
    ensures ByName(Serialized(f)) == Some(f)
  {
    ByNameExactly(Serialized(f), f);
  }

  /** byName returns null for a name that is no constant's serialised form. */
  lemma ByNameUnknown(name: string)
    requires forall f :: Serialized(f) != name
    ensures ByName(name) == None
  {
    PutAllKeys(Values, name);
  }

}
