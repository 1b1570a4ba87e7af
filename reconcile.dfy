/** `remaining_nutrients_manual`: the daily-intake table and the plate table are
    indexed by nutrient label, the canonical names are renamed to display
    labels, detected is subtracted from target label by label, and the output
    table is assembled column by column with every number rounded half to even. */
module Reconcile {

  import opened Wrappers
  import opened Rounding
  import opened NutrientLabels

  /** A daily-intake row once "Daily Intake (Value)" exists; `None` is NaN. */
  datatype TargetRow = TargetRow(nutrient: string, value: Option<real>)

  /** A plate row after `astype(float)`. */
  datatype DetectedRow = DetectedRow(nutrient: string, quantity: real)

  /** A row of `remaining_df`. */
  datatype RemainingRow = RemainingRow(
    nutrient: string,
    remaining: Option<int>,
    original: Option<int>,
    detected: int)

  /** The index of `set_index("Nutrient").rename(index=nutrient_mapping)`. */
  function AlignedLabels(targets: seq<TargetRow>): (r: seq<string>)
    ensures |r| == |targets|
    ensures forall i :: 0 <= i < |targets| ==> r[i] == Rename(NutrientMapping, targets[i].nutrient)
  {
    RenameAll(NutrientMapping, seq(|targets|, i requires 0 <= i < |targets| => targets[i].nutrient))
  }

  function DetectedLabels(detected: seq<DetectedRow>): (r: seq<string>)
    ensures |r| == |detected|
    ensures forall i :: 0 <= i < |detected| ==> r[i] == detected[i].nutrient
  {
    seq(|detected|, i requires 0 <= i < |detected| => detected[i].nutrient)
  }

  /** Float subtraction where a NaN operand gives NaN. */
  function Minus(target: Option<real>, quantity: real): (r: Option<real>)
    ensures r.Some? <==> target.Some?
    ensures r.Some? ==> r.value + quantity == target.value
  {
    match target
    case None => None
    case Some(t) => Some(t - quantity)
  }

  function IndexOf(s: seq<string>, x: string): (i: nat)
    requires x in s
    ensures i < |s| && s[i] == x
    ensures forall j :: 0 <= j < i ==> s[j] != x
  {
    if s[0] == x then 0 else 1 + IndexOf(s[1..], x)
  }

  /** `aligned_daily_intake["Daily Intake (Value)"] - aligned_detected_recipe[...]`
      as a Series keyed by label: every label of either index appears, and a
      label found on one side only is NaN. */
  function RemainingByLabel(targets: seq<TargetRow>, detected: seq<DetectedRow>): (r: map<string, Option<real>>)
    ensures forall l :: l in r <==> l in AlignedLabels(targets) || l in DetectedLabels(detected)
  {
    var aligned := AlignedLabels(targets);
    var plate := DetectedLabels(detected);
    map l | l in (set i | 0 <= i < |aligned| :: aligned[i]) + (set j | 0 <= j < |plate| :: plate[j]) ::
      if l in aligned && l in plate
      then Minus(targets[IndexOf(aligned, l)].value, detected[IndexOf(plate, l)].quantity)
      else None
  }

  /** For a label carried once by each table, the remaining amount is target
      minus detected, before any rounding. */
  lemma RemainingAtSharedLabel(targets: seq<TargetRow>, detected: seq<DetectedRow>, i: nat, j: nat)
    requires i < |targets| && j < |detected|
    requires Distinct(AlignedLabels(targets)) && Distinct(DetectedLabels(detected))
    requires AlignedLabels(targets)[i] == detected[j].nutrient
    ensures AlignedLabels(targets)[i] in RemainingByLabel(targets, detected)
    ensures RemainingByLabel(targets, detected)[AlignedLabels(targets)[i]] ==
              Minus(targets[i].value, detected[j].quantity)
  {
    var aligned := AlignedLabels(targets);
    var plate := DetectedLabels(detected);
    var l := aligned[i];
    assert plate[j] == l;
    var i', j' := IndexOf(aligned, l), IndexOf(plate, l);
    assert i' == i && j' == j;
  }

  /** A label found in only one of the two tables has no remaining value (NaN). */
  lemma RemainingAtOneSidedLabel(targets: seq<TargetRow>, detected: seq<DetectedRow>, l: string)
    requires (l in AlignedLabels(targets)) != (l in DetectedLabels(detected))
    ensures l in RemainingByLabel(targets, detected)
    ensures RemainingByLabel(targets, detected)[l] == None
  {
  }

  /** `remaining_df`, assembled positionally: the Nutrient column is the
      renamed index in target order, and the three number columns are rounded
      half to even. The positional assembly lines up only because both tables
      carry the same label sequence, which pandas then aligns without reordering. */
  function RemainingTable(targets: seq<TargetRow>, detected: seq<DetectedRow>): (r: seq<RemainingRow>)
    requires AlignedLabels(targets) == DetectedLabels(detected)
    ensures |r| == |targets|
    ensures forall i :: 0 <= i < |targets| ==> r[i].nutrient == AlignedLabels(targets)[i]
    ensures forall i :: 0 <= i < |targets| ==>
              && r[i].original == RoundOpt(targets[i].value)
              && NearestTiesEven(detected[i].quantity, r[i].detected)
              && (r[i].remaining.Some? <==> targets[i].value.Some?)
              && (r[i].remaining.Some? ==>
                    NearestTiesEven(targets[i].value.value - detected[i].quantity, r[i].remaining.value))
  {
    var aligned := AlignedLabels(targets);
    seq(|targets|, i requires 0 <= i < |targets| =>
      RemainingRow(
        aligned[i],
        RoundOpt(Minus(targets[i].value, detected[i].quantity)),
        RoundOpt(targets[i].value),
        RoundHalfEven(detected[i].quantity)))
  }

  lemma RemainingTableRow(targets: seq<TargetRow>, detected: seq<DetectedRow>, i: nat)
    requires AlignedLabels(targets) == DetectedLabels(detected)
    requires i < |targets|
    ensures RemainingTable(targets, detected)[i].remaining == RoundOpt(Minus(targets[i].value, detected[i].quantity))
  {
  }

  /** Row by row, the output's "Remaining Daily Intake" is the label-keyed
      difference of that row's label, rounded. */
  lemma RemainingTableAgreesWithLabels(targets: seq<TargetRow>, detected: seq<DetectedRow>, i: nat)
    requires AlignedLabels(targets) == DetectedLabels(detected)
    requires Distinct(AlignedLabels(targets))
    requires i < |targets|
    ensures AlignedLabels(targets)[i] in RemainingByLabel(targets, detected)
    ensures RemainingTable(targets, detected)[i].remaining ==
              RoundOpt(RemainingByLabel(targets, detected)[AlignedLabels(targets)[i]])
  {
    RemainingAtSharedLabel(targets, detected, i, i);
  }

  /** Going over the target is kept as a negative remaining amount: nothing is
      clamped at zero. */
  lemma OverTargetIsNegative(targets: seq<TargetRow>, detected: seq<DetectedRow>, i: nat)
    requires AlignedLabels(targets) == DetectedLabels(detected)
    requires i < |targets| && targets[i].value.Some?
    requires detected[i].quantity >= targets[i].value.value + 1.0
    ensures RemainingTable(targets, detected)[i].remaining.value < 0
  {
  }

  /** `remaining_df["Remaining Daily Intake"].tolist()`: the vector sent to the
      recipe recommender. */
  function RecommenderInput(rows: seq<RemainingRow>): (r: seq<Option<int>>)
    ensures |r| == |rows|
    ensures forall i :: 0 <= i < |rows| ==> r[i] == rows[i].remaining
  {
    seq(|rows|, i requires 0 <= i < |rows| => rows[i].remaining)
  }
}
