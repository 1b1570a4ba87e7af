/** The branch of the meal analysis page on the classifier's confidence for the
    recipe it predicts. */
module Confidence {

  import opened Wrappers

  datatype Band = High | Moderate | Low

  /** What the page does next. */
  datatype Reaction =
    | FetchNutrients(recipe: string)   // high: fetch the plate nutrients at once
    | AskConfirmation(recipe: string)  // moderate: ask "Yes, that's correct!" / "No"
    | AskForLabel                      // low: ask the user what is on the plate

  /** The `if` / `elif` / `elif` chain as written; `None` would mean that no
      branch is taken. */
  function ClassifyChain(confidence: real): (r: Option<Band>)
    ensures r.Some?
  {
    if confidence > 0.8 then Some(High)
    else if 0.6 <= confidence <= 0.8 then Some(Moderate)
    else if confidence < 0.6 then Some(Low)
    else None
  }

  /** The three intervals: (0.8, +inf), [0.6, 0.8] and (-inf, 0.6). */
  ghost predicate InBand(confidence: real, b: Band)
  {
    match b
    case High => 0.8 < confidence
    case Moderate => 0.6 <= confidence && confidence <= 0.8
    case Low => confidence < 0.6
  }

  /** Every confidence lies in exactly one band, and that is the one the chain picks. */
  lemma BandsPartition(confidence: real)
    ensures exists b :: InBand(confidence, b)
    ensures forall b, b' :: InBand(confidence, b) && InBand(confidence, b') ==> b == b'
    ensures forall b :: InBand(confidence, b) <==> ClassifyChain(confidence) == Some(b)
  {
    assert InBand(confidence, ClassifyChain(confidence).value);
  }

  function Rank(b: Band): nat
  {
    match b
    case Low => 0
    case Moderate => 1
    case High => 2
  }

  /** A higher confidence never lands in a lower band. */
  lemma ClassifyMonotone(c: real, c': real)
    requires c <= c'
    ensures Rank(ClassifyChain(c).value) <= Rank(ClassifyChain(c').value)
  {
  }

  /** The page's reaction: only a high confidence fetches the nutrients
      straight away; a moderate one keeps the predicted recipe for the
      confirmation button; a low one drops it. */
  function Respond(confidence: real, recipe: string): (r: Reaction)
    ensures r.FetchNutrients? <==> InBand(confidence, High)
    ensures r.AskConfirmation? <==> InBand(confidence, Moderate)
    ensures r.AskForLabel? <==> InBand(confidence, Low)
    ensures !r.AskForLabel? ==> r.recipe == recipe
  {
    match ClassifyChain(confidence).value
    case High => FetchNutrients(recipe)
    case Moderate => AskConfirmation(recipe)
    case Low => AskForLabel
  }
}
