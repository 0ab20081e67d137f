/**
 * CardId.java: the identity of a card as a name-based UUID of its name and
 * rules text; a two-part card joins both parts with a "//" line.
 */
module CardId {
  import opened Base
  import ApiCard

  /** UUID.nameUUIDFromBytes of the UTF-8 bytes of a string (not part of this model, hence a parameter). */
  type NameUuid = string -> ApiCard.Uuid

  datatype CardId = CardId(id: ApiCard.Uuid)

  /** The text behind a one-part id: name, a newline, rules text. */
  function SingleText(name: Option<string>, oracle: Option<string>): string
  {
    JStr(name) + "\n" + JStr(oracle)
  }

  /** The text behind a two-part id. */
  function PairText(name1: Option<string>, oracle1: Option<string>, name2: Option<string>, oracle2: Option<string>): string
  {
    JStr(name1) + "\n" + JStr(oracle1) + "\n//\n\n" + JStr(name2) + "\n" + JStr(oracle2)
  }

  /** new CardId(Card), and CardId.of(Card). */
  function OfCard(nameUuid: NameUuid, card: ApiCard.Card): CardId
  {
    CardId(nameUuid(SingleText(card.name, card.oracleText)))
  }

  /** new CardId(Card, Card), and CardId.of(Card, Card). */
  function OfCards(nameUuid: NameUuid, first: ApiCard.Card, second: ApiCard.Card): CardId
  {
    CardId(nameUuid(PairText(first.name, first.oracleText, second.name, second.oracleText)))
  }

  /** new CardId(Face, Face), and CardId.of(Face, Face). */
  function OfFaces(nameUuid: NameUuid, face1: ApiCard.Face, face2: ApiCard.Face): CardId
  {
    CardId(nameUuid(PairText(face1.name, face1.oracleText, face2.name, face2.oracleText)))
  }

  /** CardId.equals; `other` is None for null. */
  predicate Equals(a: CardId, other: Option<CardId>)
  {
    other.Some? && a.id == other.value.id
  }

  /** CardId.hashCode: Objects.hash of the one UUID, i.e. 31 + its hash code in int arithmetic. */
  function HashCode(uuidHash: ApiCard.Uuid -> int, a: CardId): int
  {
    Wrap32(31 + uuidHash(a.id))
  }

  /** A two-part text is the two one-part texts around the "//" separator line. */
  lemma PairTextJoinsParts(name1: Option<string>, oracle1: Option<string>, name2: Option<string>, oracle2: Option<string>)
    ensures PairText(name1, oracle1, name2, oracle2) == SingleText(name1, oracle1) + "\n//\n\n" + SingleText(name2, oracle2)
    ensures |PairText(name1, oracle1, name2, oracle2)| == |SingleText(name1, oracle1)| + 5 + |SingleText(name2, oracle2)|
  {
    var a, b, c, d := JStr(name1), JStr(oracle1), JStr(name2), JStr(oracle2);
    assert a + "\n" + b + "\n//\n\n" + c + "\n" + d == (a + "\n" + b) + "\n//\n\n" + (c + "\n" + d);
  }

  /** The card and the face constructors agree when the parts carry the same names and rules texts. */
  lemma FacesAndCardsAgree(nameUuid: NameUuid, c1: ApiCard.Card, c2: ApiCard.Card, f1: ApiCard.Face, f2: ApiCard.Face)
    requires c1.name == f1.name && c1.oracleText == f1.oracleText
    requires c2.name == f2.name && c2.oracleText == f2.oracleText
    ensures OfCards(nameUuid, c1, c2) == OfFaces(nameUuid, f1, f2)
  {
  }

  /** equals compares the UUIDs: it is reflexive, symmetric, false for null, and equal ids hash alike. */
  lemma EqualsMeaning(uuidHash: ApiCard.Uuid -> int, a: CardId, b: CardId)
    ensures Equals(a, Some(b)) <==> a == b
    ensures Equals(a, Some(a)) && !Equals(a, None)
    ensures Equals(a, Some(b)) <==> Equals(b, Some(a))
    ensures Equals(a, Some(b)) ==> HashCode(uuidHash, a) == HashCode(uuidHash, b)
  {
  }
}
