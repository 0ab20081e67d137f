/**
 * ScryfallPrinting.java: one printing of a card in a set, with its printed
 * faces keyed by face kind.  The faces map starts empty and is filled by the
 * card factory; the accessors are lookups.
 */
module ScryfallPrintings {
  import opened Base
  import opened FaceKinds
  import ApiCard
  import LibMtg
  import Util

  /** `inSet` (the set) and `card` are whatever the caller identifies the set and the card by. */
  datatype Printing<S, C, PF> = Printing(inSet: S, card: C, cardJson: ApiCard.Card, faces: map<Kind, PF>)

  /** new ScryfallPrinting(set, card, cardJson): no printed faces yet. */
  function New<S, C, PF>(inSet: S, card: C, cardJson: ApiCard.Card): (p: Printing<S, C, PF>)
    ensures p.faces == map[] && p.inSet == inSet && p.card == card && p.cardJson == cardJson
  {
    Printing(inSet, card, cardJson, map[])
  }

  /** face(kind): the printed face stored under kind, or null. */
  function Face<S, C, PF>(p: Printing<S, C, PF>, kind: Kind): (r: Option<PF>)
    ensures r.Some? <==> kind in p.faces
    ensures r.Some? ==> r.value == p.faces[kind]
  {
    if kind in p.faces then Some(p.faces[kind]) else None
  }

  /** faces(): every stored printed face. */
  function Faces<S, C, PF>(p: Printing<S, C, PF>): (r: set<PF>)
    ensures forall k :: k in p.faces ==> p.faces[k] in r
    ensures forall x :: x in r ==> exists k :: k in p.faces && p.faces[k] == x
    ensures r == {} <==> p.faces == map[]
  {
    p.faces.Values
  }

  /** id() */
  function Id<S, C, PF>(p: Printing<S, C, PF>): ApiCard.Uuid
  {
    p.cardJson.id
  }

  /** collectorNumber() */
  function CollectorNumber<S, C, PF>(p: Printing<S, C, PF>): Option<string>
  {
    p.cardJson.collectorNumber
  }

  /** variation(): not worked out in this class; always 0. */
  function Variation<S, C, PF>(p: Printing<S, C, PF>): (r: int)
    ensures r == 0
  {
    0
  }

  /** rarity() */
  function Rarity<S, C, PF>(p: Printing<S, C, PF>): Result<Option<LibMtg.CardRarity>>
  {
    Util.MapRarity(p.cardJson)
  }

  /** faces.computeIfAbsent(kind, ...): the stored face when there is one, otherwise pf, stored. */
  function FaceOrAdd<S, C, PF>(p: Printing<S, C, PF>, kind: Kind, pf: PF): (r: (Printing<S, C, PF>, PF))
    ensures kind in r.0.faces && r.0.faces[kind] == r.1
    ensures r.0.inSet == p.inSet && r.0.card == p.card && r.0.cardJson == p.cardJson
    ensures forall k :: k in p.faces ==> k in r.0.faces && r.0.faces[k] == p.faces[k]
    ensures kind in p.faces ==> r.0 == p
    ensures kind !in p.faces ==> r.1 == pf && r.0.faces.Keys == p.faces.Keys + {kind}
  {
    if kind in p.faces then (p, p.faces[kind]) else (p.(faces := p.faces[kind := pf]), pf)
  }

  /** The accessors read the record and the constructor arguments: id and number are the record's, and a new printing answers no face. */
  lemma AccessorsMeaning<S, C, PF>(inSet: S, card: C, cardJson: ApiCard.Card, kind: Kind)
    ensures var p: Printing<S, C, PF> := New(inSet, card, cardJson);
      && p.inSet == inSet && p.card == card
      && Id(p) == cardJson.id && CollectorNumber(p) == cardJson.collectorNumber
      && Face(p, kind).None? && Faces(p) == {}
      && Rarity(p) == Util.MapRarity(cardJson)
  {
  }

  /** Adding faces never changes what an earlier lookup answered, and a second add under the same kind keeps the first. */
  lemma FaceOrAddIdempotent<S, C, PF>(p: Printing<S, C, PF>, kind: Kind, pf1: PF, pf2: PF)
    ensures var (q, a) := FaceOrAdd(p, kind, pf1); var (q2, b) := FaceOrAdd(q, kind, pf2);
      q2 == q && b == a && Face(q, kind) == Some(a)
  {
  }
}
