/**
 * The handful of enumerations of the card library (emi.lib.mtg) that the
 * Scryfall enums map onto.  Only the constants those mappings mention are
 * listed; the library itself is not part of this model.
 */
module LibMtg {

  /** emi.lib.mtg.characteristic.Color. */
  datatype Color = White | Blue | Black | Red | Green

  function ColorName(c: Color): string
  {
    match c
    case White => "WHITE" case Blue => "BLUE" case Black => "BLACK" case Red => "RED" case Green => "GREEN"
  }

  /** emi.lib.mtg.characteristic.CardRarity. */
  datatype CardRarity = BasicLand | Common | Uncommon | Rare | MythicRare | Special

  function RarityName(r: CardRarity): string
  {
    match r
    case BasicLand => "BasicLand" case Common => "Common" case Uncommon => "Uncommon"
    case Rare => "Rare" case MythicRare => "MythicRare" case Special => "Special"
  }

  /** emi.lib.mtg.game.Format. */
  datatype Format =
    | Standard | Modern | Legacy | Vintage | Commander | Pauper | Penny
    | Future | Brawl | Pioneer | Historic | Alchemy | Explorer

  function FormatName(f: Format): string
  {
    match f
    case Standard => "Standard" case Modern => "Modern" case Legacy => "Legacy" case Vintage => "Vintage"
    case Commander => "Commander" case Pauper => "Pauper" case Penny => "Penny" case Future => "Future"
    case Brawl => "Brawl" case Pioneer => "Pioneer" case Historic => "Historic" case Alchemy => "Alchemy"
    case Explorer => "Explorer"
  }

  /** emi.lib.mtg.Set.Type. */
  datatype SetKind = StandardSet | Remaster | Precon | Promo | Other

  /** emi.lib.mtg.Card.Legality. */
  datatype Legality = Legal | NotLegal | Restricted | Banned

  function LegalityName(l: Legality): string
  {
    match l
    case Legal => "Legal" case NotLegal => "NotLegal" case Restricted => "Restricted" case Banned => "Banned"
  }

  /** emi.lib.mtg.enums.StandardFrame: the split and flip frames. */
  datatype StandardFrame =
    | SplitLeftModern | SplitRightModern | FlipTopModern | FlipBottomModern
    | SplitLeftFull | SplitRightFull | FlipTopFull | FlipBottomFull

  /** Whether a frame is one of the *Modern frames (or else one of the *Full frames). */
  predicate IsModernFrame(f: StandardFrame)
  {
    f.SplitLeftModern? || f.SplitRightModern? || f.FlipTopModern? || f.FlipBottomModern?
  }
}

/** emi.lib.mtg.Card.Face.Kind: the position a face takes on its card. */
module FaceKinds {
  datatype Kind = Front | Transformed | Flipped | Left | Right | Other
}
