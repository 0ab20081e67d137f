/**
 * ScryfallPrintedFace.java: a face as it appears on one printing.  All its
 * fields are final; the flavour text comes from the face entry when there
 * is one and from the record otherwise.
 */
module PrintedFaces {
  import opened Base
  import opened Util
  import ApiCard

  /** `printing` and `face` are whatever the caller identifies the printing and the face by. */
  datatype PrintedFace<P, F> = PrintedFace(printing: P, face: F, cardJson: ApiCard.Card, faceJson: Option<ApiCard.Face>)

  /** flavor() */
  function Flavor<P, F>(pf: PrintedFace<P, F>): string
  {
    Or(if pf.faceJson.Some? then pf.faceJson.value.flavorText else pf.cardJson.flavorText, "")
  }

  /**
   * The flavour is the face entry's whenever there is one and the record's
   * otherwise; it is "" exactly when the chosen text is null or empty.
   */
  lemma FlavorMeaning<P, F>(pf: PrintedFace<P, F>)
    ensures pf.faceJson.Some? ==> Flavor(pf) == Or(pf.faceJson.value.flavorText, "")
    ensures pf.faceJson.None? ==> Flavor(pf) == Or(pf.cardJson.flavorText, "")
    ensures var chosen := if pf.faceJson.Some? then pf.faceJson.value.flavorText else pf.cardJson.flavorText;
      Flavor(pf) == "" <==> chosen.None? || chosen.value == ""
  {
  }
}
