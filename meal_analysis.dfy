/** The session's daily-intake table, which `remaining_nutrients_manual`
    changes in place by adding the "Daily Intake (Value)" column once, and the
    path of `get_nutrients_and_KNN` from the plate records to the vector sent
    to the recipe recommender. */
module MealAnalysis {

  import opened Wrappers
  import opened Rounding
  import opened IntakeText
  import opened NutrientLabels
  import opened Plate
  import opened Reconcile

  datatype AnalysisError =
    | PlateFailed(reason: PlateError)   // building the plate table raised
    | IntakeNotANumber(run: string)     // `astype(float)` rejected a daily-intake run

  /** The "Daily Intake (Value)" column after extraction, or its old contents
      when it is already there: the column is computed at most once. */
  function CachedIntakeValues(texts: seq<string>, column: Option<seq<Option<real>>>): (r: Result<seq<Option<real>>, string>)
    ensures column.Some? ==> r == Ok(column.value)
    ensures column.None? ==> (r.Ok? <==> forall i :: 0 <= i < |texts| ==> IntakeValue(texts[i]).Ok?)
    ensures column.None? && r.Ok? ==> |r.value| == |texts|
    ensures column.None? && r.Ok? ==> forall i :: 0 <= i < |texts| ==> IntakeValue(texts[i]) == Ok(r.value[i])
    ensures column.None? && r.Ok? ==>
              forall i :: 0 <= i < |texts| ==> (r.value[i] == None <==> NoRunChar(texts[i]))
  {
    match column
    case Some(values) => Ok(values)
    case None => ExtractColumn(texts)
  }

  /** Rows of the table as `remaining_nutrients_manual` reads them. */
  function Targets(nutrient: seq<string>, values: seq<Option<real>>): (r: seq<TargetRow>)
    requires |values| == |nutrient|
    ensures |r| == |nutrient|
    ensures forall i :: 0 <= i < |nutrient| ==> r[i] == TargetRow(nutrient[i], values[i])
  {
    seq(|nutrient|, i requires 0 <= i < |nutrient| => TargetRow(nutrient[i], values[i]))
  }

  /** The plate table after `astype(float)` on its quantities. */
  function DetectedFromPlate(rows: seq<PlateRow>): (r: seq<DetectedRow>)
    ensures |r| == |rows|
    ensures forall i :: 0 <= i < |rows| ==> r[i] == DetectedRow(rows[i].nutrient, rows[i].quantity as real)
  {
    seq(|rows|, i requires 0 <= i < |rows| => DetectedRow(rows[i].nutrient, rows[i].quantity as real))
  }

  /** The daily-intake DataFrame kept in the session. */
  class DailyIntakeTable {
    var nutrient: seq<string>                   // "Nutrient"
    var intakeText: seq<string>                 // "Your Daily Intake"
    var intakeValue: Option<seq<Option<real>>>  // "Daily Intake (Value)", when the column exists

    ghost predicate Valid()
      reads this
    {
      && |intakeText| == |nutrient|
      && (intakeValue.Some? ==> |intakeValue.value| == |nutrient|)
    }

    /** The table as the daily-needs service returns it: no value column yet. */
    constructor (nutrient: seq<string>, intakeText: seq<string>)
      requires |intakeText| == |nutrient|
      ensures Valid()
      ensures this.nutrient == nutrient && this.intakeText == intakeText && intakeValue == None
    {
      this.nutrient := nutrient;
      this.intakeText := intakeText;
      intakeValue := None;
    }

    /** The caching step of `remaining_nutrients_manual`: add the value column
        when it is absent. A conversion error leaves the table as it was; a
        present column is never recomputed, so a second call changes nothing. */
    method CacheIntakeValues() returns (r: Result<seq<Option<real>>, string>)
      requires Valid()
      modifies this
      ensures Valid()
      ensures nutrient == old(nutrient) && intakeText == old(intakeText)
      ensures r == CachedIntakeValues(intakeText, old(intakeValue))
      ensures intakeValue == if r.Ok? then Some(r.value) else old(intakeValue)
      ensures old(intakeValue).Some? ==> intakeValue == old(intakeValue)
    {
      if intakeValue.None? {
        var extracted := ExtractColumn(intakeText);
        if extracted.Ok? {
          intakeValue := Some(extracted.value);
        }
        r := extracted;
      } else {
        r := Ok(intakeValue.value);
      }
    }

    /** `remaining_nutrients_manual(df, detected_recipe_df)` with this table as
        `df`. The table and the plate must carry the same label sequence once
        the canonical names are renamed. */
    method RemainingNutrientsManual(detected: seq<DetectedRow>) returns (r: Result<seq<RemainingRow>, string>)
      requires Valid()
      requires RenameAll(NutrientMapping, nutrient) == DetectedLabels(detected)
      modifies this
      ensures Valid()
      ensures nutrient == old(nutrient) && intakeText == old(intakeText)
      ensures match CachedIntakeValues(intakeText, old(intakeValue))
              case Err(run) => r == Err(run) && intakeValue == old(intakeValue)
              case Ok(values) =>
                && intakeValue == Some(values)
                && r == Ok(RemainingTable(Targets(nutrient, values), detected))
    {
      var values := CacheIntakeValues();
      if values.Err? {
        return Err(values.error);
      }
      var targets := Targets(nutrient, values.value);
      assert AlignedLabels(targets) == RenameAll(NutrientMapping, nutrient);
      r := Ok(RemainingTable(targets, detected));
    }
  }

  /** `get_nutrients_and_KNN` without its HTTP calls and its rendering: build the
      plate table from the nutrient records, reconcile it with the session's
      daily-intake table, and return the "Remaining Daily Intake" vector that
      is posted to the recommender. The daily-intake table is expected in
      canonical order. */
  method GetNutrientsAndKnn(table: DailyIntakeTable, records: seq<NutrientRecord>)
    returns (r: Result<seq<Option<int>>, AnalysisError>)
    requires table.Valid()
    requires RenameAll(NutrientMapping, table.nutrient) == OrderedColumns
    modifies table
    ensures table.Valid()
    ensures table.nutrient == old(table.nutrient) && table.intakeText == old(table.intakeText)
    ensures NormalisePlate(records).Err? ==>
              r == Err(PlateFailed(NormalisePlate(records).error)) && table.intakeValue == old(table.intakeValue)
    ensures NormalisePlate(records).Ok? ==>
              match CachedIntakeValues(table.intakeText, old(table.intakeValue))
              case Err(run) => r == Err(IntakeNotANumber(run)) && table.intakeValue == old(table.intakeValue)
              case Ok(values) =>
                && table.intakeValue == Some(values)
                && r == Ok(RecommenderInput(RemainingTable(Targets(table.nutrient, values),
                                                            DetectedFromPlate(NormalisePlate(records).value))))
  {
    var plate := NormalisePlate(records);
    if plate.Err? {
      return Err(PlateFailed(plate.error));
    }
    NormalisePlateLabels(records);
    var detected := DetectedFromPlate(plate.value);
    assert DetectedLabels(detected) == OrderedColumns;
    var remaining := table.RemainingNutrientsManual(detected);
    if remaining.Err? {
      return Err(IntakeNotANumber(remaining.error));
    }
    r := Ok(RecommenderInput(remaining.value));
  }

  /** The plate table, when built, is labelled with `ordered_columns` in order. */
  lemma NormalisePlateLabels(records: seq<NutrientRecord>)
    requires NormalisePlate(records).Ok?
    ensures DetectedLabels(DetectedFromPlate(NormalisePlate(records).value)) == OrderedColumns
  {
    NormalisePlateSucceeds(records);
    assert records == [records[0]];
    NormalisePlateRows(records[0]);
    var rows := NormalisePlate(records).value;
    var labels := DetectedLabels(DetectedFromPlate(rows));
    forall i | 0 <= i < 10 ensures labels[i] == OrderedColumns[i] {
      assert rows[i].nutrient == OrderedColumns[i];
    }
  }

  /** Canonical names, in canonical order, rename to `ordered_columns`. */
  lemma CanonicalTargetsAligned(values: seq<Option<real>>)
    requires |values| == 10
    ensures AlignedLabels(Targets(CanonicalNames, values)) == OrderedColumns
  {
    var targets := Targets(CanonicalNames, values);
    RenameCanonicalNames();
    assert seq(10, i requires 0 <= i < 10 => targets[i].nutrient) == CanonicalNames;
  }

  /** End to end, for a daily-intake table in canonical order and one plate
      record carrying every provider key: the two tables line up row for row,
      and the recommender receives ten values, the i-th being the i-th target
      minus the i-th rounded plate amount, rounded half to even. */
  lemma CanonicalTablesLineUp(values: seq<Option<real>>, record: NutrientRecord)
    requires |values| == 10
    requires forall k :: k in RelevantColumns ==> k in record
    ensures NormalisePlate([record]).Ok?
    ensures var targets := Targets(CanonicalNames, values);
            var detected := DetectedFromPlate(NormalisePlate([record]).value);
            && AlignedLabels(targets) == DetectedLabels(detected)
            && var vector := RecommenderInput(RemainingTable(targets, detected));
               && |vector| == 10
               && forall i :: 0 <= i < 10 ==>
                    vector[i] == RoundOpt(Minus(values[i], RoundHalfEven(record[RelevantColumns[i]]) as real))
  {
    NormalisePlateRows(record);
    var rows := NormalisePlate([record]).value;
    var targets := Targets(CanonicalNames, values);
    var detected := DetectedFromPlate(rows);
    CanonicalTargetsAligned(values);
    NormalisePlateLabels([record]);
    var table := RemainingTable(targets, detected);
    forall i | 0 <= i < 10
      ensures RecommenderInput(table)[i] == RoundOpt(Minus(values[i], RoundHalfEven(record[RelevantColumns[i]]) as real))
    {
      RemainingTableRow(targets, detected, i);
      assert detected[i].quantity == RoundHalfEven(record[RelevantColumns[i]]) as real;
    }
  }
}
