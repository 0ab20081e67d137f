/**
 * Util.java: null defaults and the translation of the API's colours and
 * rarities into the card library's.
 */
module Util {
  import opened Base
  import LibMtg
  import ColorEnum
  import RarityEnum
  import ApiCard

  /** Util.or: the value when there is one, otherwise the default. */
  function Or<T>(x: Option<T>, def: T): T
  {
    if x.Some? then x.value else def
  }

  /** Util.orEmpty: a null set reads as the empty set. */
  function OrEmpty<T>(x: Option<set<T>>): set<T>
  {
    Or(x, {})
  }

  /** The default is returned exactly when there is no value or the value equals it. */
  lemma OrMeaning<T>(x: Option<T>, def: T)
    ensures x.Some? ==> Or(x, def) == x.value
    ensures Or(x, def) == def <==> x.None? || x.value == def
    ensures OrEmpty(if x.Some? then Some({x.value}) else None) == if x.Some? then {x.value} else {}
  {
  }

  /**
   * Util.mapColor: a null set is the empty combination; otherwise every API
   * colour is replaced by its library colour.  Unrecognized has no library
   * colour and contributes nothing.
   */
  function MapColor(apiColors: Option<set<ColorEnum.Color>>): set<LibMtg.Color>
  {
    if apiColors.None? then {}
    else set c | c in apiColors.value && ColorEnum.LibColor(c).Some? :: ColorEnum.LibColor(c).value
  }

  /** A library colour is in the result exactly when some API colour of the input maps to it. */
  lemma MapColorMeaning(s: set<ColorEnum.Color>, lc: LibMtg.Color)
    ensures lc in MapColor(Some(s)) <==> exists c :: c in s && ColorEnum.LibColor(c) == Some(lc)
    ensures MapColor(None) == {}
  {
    if exists c :: c in s && ColorEnum.LibColor(c) == Some(lc) {
      var c :| c in s && ColorEnum.LibColor(c) == Some(lc);
      assert ColorEnum.LibColor(c).value in MapColor(Some(s));
    }
  }

  /** The translation respects union and inclusion of colour sets. */
  lemma MapColorUnion(a: set<ColorEnum.Color>, b: set<ColorEnum.Color>)
    ensures MapColor(Some(a + b)) == MapColor(Some(a)) + MapColor(Some(b))
    ensures a <= b ==> MapColor(Some(a)) <= MapColor(Some(b))
  {
    forall lc | lc in MapColor(Some(a + b))
      ensures lc in MapColor(Some(a)) + MapColor(Some(b))
    {
      MapColorMeaning(a + b, lc);
      var c :| c in a + b && ColorEnum.LibColor(c) == Some(lc);
      if c in a { MapColorMeaning(a, lc); } else { MapColorMeaning(b, lc); }
    }
  }

  /** Every one of the five colours is translated to the library colour of the same name. */
  lemma MapColorKeepsNames(s: set<ColorEnum.Color>, c: ColorEnum.Color)
    requires c in s && c != ColorEnum.Unrecognized
    ensures exists lc :: lc in MapColor(Some(s)) && Lower(LibMtg.ColorName(lc)) == Lower(ColorEnum.Name(c))
  {
    ColorEnum.LibColorMeaning(c);
    assert ColorEnum.LibColor(c).value in MapColor(Some(s));
  }

  /**
   * Util.mapRarity: a record whose type line mentions "Basic Land" is a
   * basic land whatever its rarity; otherwise the rarity's library rarity,
   * which is null for Unrecognized (the assertion against that is disabled
   * in a normal run).  A null rarity dereferences null.
   */
  function MapRarity(card: ApiCard.Card): Result<Option<LibMtg.CardRarity>>
  {
    if card.typeLine.Some? && Contains(card.typeLine.value, "Basic Land") then Ok(Some(LibMtg.BasicLand))
    else if card.rarity.None? then Err(NullPointer)
    else Ok(RarityEnum.LibRarity(card.rarity.value))
  }

  /** The result is BasicLand exactly for basic-land type lines; it fails exactly when the rarity is needed and null. */
  lemma MapRarityMeaning(card: ApiCard.Card)
    ensures MapRarity(card) == Ok(Some(LibMtg.BasicLand)) <==> card.typeLine.Some? && Contains(card.typeLine.value, "Basic Land")
    ensures MapRarity(card).Err? <==> !(card.typeLine.Some? && Contains(card.typeLine.value, "Basic Land")) && card.rarity.None?
    ensures MapRarity(card) == Ok(None) <==>
      !(card.typeLine.Some? && Contains(card.typeLine.value, "Basic Land")) && card.rarity == Some(RarityEnum.Unrecognized)
  {
    if card.rarity.Some? {
      RarityEnum.LibRarityMeaning(card.rarity.value);
    }
  }
}
