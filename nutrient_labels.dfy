/** The fixed naming tables of the meal analysis page: the ten canonical
    nutrient names of the daily-needs service, the provider column keys of the
    plate-nutrient service, and the display labels both are renamed to. */
module NutrientLabels {

  /** Keys of `nutrient_mapping`, in the order the dictionary lists them. */
  const CanonicalNames: seq<string> := [
    "Carbohydrates", "Proteins", "Fats", "Calcium", "Iron",
    "Magnesium", "Sodium", "Vitamin C", "Vitamin D", "Vitamin A"
  ]

  /** `ordered_columns`: the display labels in table order. */
  const OrderedColumns: seq<string> := [
    "🍞 Carbohydrates (g)", "🥩 Proteins (g)", "🥑 Fats (g)", "🥛 Calcium (mg)",
    "🥬 Iron (mg)", "🐟 Magnesium (mg)", "🧂 Sodium (mg)", "🍊 Vitamin C (mg)",
    "🌞 Vitamin D (µg)", "🥕 Vitamin A (µg)"
  ]

  /** `relevant_columns`: the provider keys selected from a nutrient record. */
  const RelevantColumns: seq<string> := [
    "Carbohydrates_(G)_total", "Protein_(G)_total", "Lipid_(G)_total",
    "Calcium_(MG)_total", "Iron_(MG)_total", "Magnesium_(MG)_total",
    "Sodium_(MG)_total", "Vitamin_C_(MG)_total", "Vitamin_D_(UG)_total",
    "Vitamin_A_(UG)_total"
  ]

  /** `nutrient_mapping`: canonical name to display name. */
  const NutrientMapping: map<string, string> := map[
    "Carbohydrates" := "🍞 Carbohydrates (g)",
    "Proteins" := "🥩 Proteins (g)",
    "Fats" := "🥑 Fats (g)",
    "Calcium" := "🥛 Calcium (mg)",
    "Iron" := "🥬 Iron (mg)",
    "Magnesium" := "🐟 Magnesium (mg)",
    "Sodium" := "🧂 Sodium (mg)",
    "Vitamin C" := "🍊 Vitamin C (mg)",
    "Vitamin D" := "🌞 Vitamin D (µg)",
    "Vitamin A" := "🥕 Vitamin A (µg)"
  ]

  /** `column_rename_mapping`: provider key to display name. */
  const ColumnRenameMapping: map<string, string> := map[
    "Carbohydrates_(G)_total" := "🍞 Carbohydrates (g)",
    "Protein_(G)_total" := "🥩 Proteins (g)",
    "Lipid_(G)_total" := "🥑 Fats (g)",
    "Calcium_(MG)_total" := "🥛 Calcium (mg)",
    "Iron_(MG)_total" := "🥬 Iron (mg)",
    "Magnesium_(MG)_total" := "🐟 Magnesium (mg)",
    "Sodium_(MG)_total" := "🧂 Sodium (mg)",
    "Vitamin_C_(MG)_total" := "🍊 Vitamin C (mg)",
    "Vitamin_D_(UG)_total" := "🌞 Vitamin D (µg)",
    "Vitamin_A_(UG)_total" := "🥕 Vitamin A (µg)"
  ]

  predicate Distinct(s: seq<string>)
  {
    forall i, j :: 0 <= i < j < |s| ==> s[i] != s[j]
  }

  /** pandas `rename` with a dictionary: a name in the mapping is replaced,
      any other name is kept. */
  function Rename(mapping: map<string, string>, name: string): (r: string)
    ensures r in mapping.Values || r == name
  {
    if name in mapping then mapping[name] else name
  }

  function RenameAll(mapping: map<string, string>, labels: seq<string>): (r: seq<string>)
    ensures |r| == |labels|
    ensures forall i :: 0 <= i < |labels| ==> r[i] == Rename(mapping, labels[i])
  {
    seq(|labels|, i requires 0 <= i < |labels| => Rename(mapping, labels[i]))
  }

  /** `nutrient_mapping` has exactly the ten distinct canonical names as keys. */
  lemma NutrientMappingKeys()
    ensures |CanonicalNames| == 10 && Distinct(CanonicalNames)
    ensures forall n :: n in NutrientMapping <==> n in CanonicalNames
  {
  }

  /** `nutrient_mapping` sends the i-th canonical name to the i-th entry of
      `ordered_columns`, whose ten entries are distinct, so the renaming is
      one-to-one. */
  lemma NutrientMappingOrder()
    ensures |CanonicalNames| == |OrderedColumns| == 10 && Distinct(OrderedColumns)
    ensures forall i :: 0 <= i < 10 ==> NutrientMapping[CanonicalNames[i]] == OrderedColumns[i]
  {
  }

  /** `column_rename_mapping` has exactly the ten distinct provider keys as keys. */
  lemma ColumnRenameMappingKeys()
    ensures |RelevantColumns| == 10 && Distinct(RelevantColumns)
    ensures forall k :: k in ColumnRenameMapping <==> k in RelevantColumns
  {
  }

  /** `column_rename_mapping` sends the i-th provider key to the i-th entry of
      `ordered_columns`. */
  lemma ColumnRenameMappingOrder()
    ensures |RelevantColumns| == |OrderedColumns| == 10
    ensures forall i :: 0 <= i < 10 ==> ColumnRenameMapping[RelevantColumns[i]] == OrderedColumns[i]
  {
  }

  /** The rename targets of both tables are exactly `ordered_columns`. */
  lemma RenameTargetsAreOrderedColumns()
    ensures forall v :: v in ColumnRenameMapping.Values <==> v in OrderedColumns
    ensures forall v :: v in NutrientMapping.Values <==> v in OrderedColumns
  {
    ColumnRenameMappingOrder();
    NutrientMappingOrder();
    forall i | 0 <= i < 10
      ensures OrderedColumns[i] in ColumnRenameMapping.Values
      ensures OrderedColumns[i] in NutrientMapping.Values
    {
      assert ColumnRenameMapping[RelevantColumns[i]] == OrderedColumns[i];
      assert NutrientMapping[CanonicalNames[i]] == OrderedColumns[i];
    }
    forall v | v in ColumnRenameMapping.Values ensures v in OrderedColumns {
      var k :| k in ColumnRenameMapping && ColumnRenameMapping[k] == v;
    }
    forall v | v in NutrientMapping.Values ensures v in OrderedColumns {
      var k :| k in NutrientMapping && NutrientMapping[k] == v;
    }
  }

  /** Two different canonical names never get the same display name. */
  lemma NutrientMappingInjective(a: string, b: string)
    requires a in NutrientMapping && b in NutrientMapping && a != b
    ensures NutrientMapping[a] != NutrientMapping[b]
  {
  }

  /** A name outside `nutrient_mapping` is left as it is, and renaming twice is
      renaming once, since no display name is itself a canonical name. */
  lemma RenameOutsideMapping(name: string)
    ensures name !in NutrientMapping ==> Rename(NutrientMapping, name) == name
    ensures Rename(NutrientMapping, Rename(NutrientMapping, name)) == Rename(NutrientMapping, name)
  {
  }

  /** Renaming canonical names keeps table order: the canonical list renames to
      `ordered_columns`. */
  lemma RenameCanonicalNames()
    ensures RenameAll(NutrientMapping, CanonicalNames) == OrderedColumns
  {
  }
}
