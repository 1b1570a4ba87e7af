/** The plate table of `get_nutrients_and_KNN`: the nutrient records returned
    for a recipe become a table, ten provider columns are selected, renamed to
    display labels, put in display order, rounded, and turned into ten
    `(label, int)` rows. */
module Plate {

  import opened Wrappers
  import opened Rounding
  import opened NutrientLabels

  /** One nutrient record: provider key to amount. */
  type NutrientRecord = map<string, real>

  /** A column of the one-row plate table. */
  datatype Column = Column(name: string, value: real)

  /** A row of `nutrient_df`: display label and rounded quantity. */
  datatype PlateRow = PlateRow(nutrient: string, quantity: int)

  datatype PlateError =
    | NoNutrientData              // the record list is empty: `nutrient_df` is never bound
    | MissingColumns(keys: seq<string>)  // `KeyError` on selecting columns absent from every record
    | ShapeMismatch(records: nat) // several records: two column names for more than two columns

  function Names(cols: seq<Column>): (r: seq<string>)
    ensures |r| == |cols|
    ensures forall i :: 0 <= i < |cols| ==> r[i] == cols[i].name
  {
    seq(|cols|, i requires 0 <= i < |cols| => cols[i].name)
  }

  /** The keys, in order, that no record carries (the `KeyError` list). */
  function MissingKeys(records: seq<NutrientRecord>, keys: seq<string>): (r: seq<string>)
    ensures forall k :: k in r <==> k in keys && forall j :: 0 <= j < |records| ==> k !in records[j]
  {
    if keys == [] then []
    else
      var rest := MissingKeys(records, keys[1..]);
      if forall j :: 0 <= j < |records| ==> keys[0] !in records[j] then [keys[0]] + rest else rest
  }

  /** `detected_recipe_df[relevant_columns]` on a one-record table. */
  function SelectColumns(record: NutrientRecord, keys: seq<string>): (r: seq<Column>)
    requires forall k :: k in keys ==> k in record
    ensures Names(r) == keys
    ensures forall i :: 0 <= i < |keys| ==> r[i].value == record[keys[i]]
  {
    seq(|keys|, i requires 0 <= i < |keys| => Column(keys[i], record[keys[i]]))
  }

  /** `rename(columns=...)`: names in the mapping are replaced, values kept. */
  function RenameColumns(cols: seq<Column>, mapping: map<string, string>): (r: seq<Column>)
    ensures Names(r) == RenameAll(mapping, Names(cols))
    ensures forall i :: 0 <= i < |cols| ==> r[i].value == cols[i].value
  {
    seq(|cols|, i requires 0 <= i < |cols| => Column(Rename(mapping, cols[i].name), cols[i].value))
  }

  /** The value of the first column called `name`, if any. */
  function ColumnNamed(cols: seq<Column>, name: string): (r: Option<real>)
    ensures r.None? <==> name !in Names(cols)
  {
    if cols == [] then None
    else if cols[0].name == name then Some(cols[0].value)
    else
      assert Names(cols) == [cols[0].name] + Names(cols[1..]);
      ColumnNamed(cols[1..], name)
  }

  /** `df[order]`: the columns called as `order` says, or the names not found. */
  function ReorderColumns(cols: seq<Column>, order: seq<string>): (r: Result<seq<Column>, seq<string>>)
    ensures r.Ok? <==> forall n :: n in order ==> n in Names(cols)
    ensures r.Ok? ==> Names(r.value) == order
    ensures r.Ok? ==> forall i :: 0 <= i < |order| ==> ColumnNamed(cols, order[i]) == Some(r.value[i].value)
  {
    var names := Names(cols);
    if forall n :: n in order ==> n in names then Ok(PickColumns(cols, order))
    else Err(Filter(order, names))
  }

  function PickColumns(cols: seq<Column>, order: seq<string>): (r: seq<Column>)
    requires forall n :: n in order ==> n in Names(cols)
    ensures Names(r) == order
    ensures forall i :: 0 <= i < |order| ==> ColumnNamed(cols, order[i]) == Some(r[i].value)
  {
    seq(|order|, i requires 0 <= i < |order| => Column(order[i], ColumnNamed(cols, order[i]).value))
  }

  /** The entries of `names` that are not in `present`, in order. */
  function Filter(names: seq<string>, present: seq<string>): (r: seq<string>)
    ensures forall n :: n in r <==> n in names && n !in present
  {
    if names == [] then []
    else (if names[0] in present then [] else [names[0]]) + Filter(names[1..], present)
  }

  /** `round(0)` then `astype(int)`, row by row after the transpose. */
  function RoundColumns(cols: seq<Column>): (r: seq<PlateRow>)
    ensures |r| == |cols|
    ensures forall i :: 0 <= i < |cols| ==> r[i].nutrient == cols[i].name
    ensures forall i :: 0 <= i < |cols| ==> NearestTiesEven(cols[i].value, r[i].quantity)
  {
    seq(|cols|, i requires 0 <= i < |cols| => PlateRow(cols[i].name, RoundHalfEven(cols[i].value)))
  }

  /** The plate step of `get_nutrients_and_KNN`, from the record list to `nutrient_df`. */
  function NormalisePlate(records: seq<NutrientRecord>): (r: Result<seq<PlateRow>, PlateError>)
    ensures records == [] ==> r == Err(NoNutrientData)
    ensures r.Ok? ==> |records| == 1 && |r.value| == |OrderedColumns|
    ensures r.Ok? ==> forall i :: 0 <= i < |r.value| ==> r.value[i].nutrient == OrderedColumns[i]
  {
    if records == [] then Err(NoNutrientData)
    else
      var missing := MissingKeys(records, RelevantColumns);
      if missing != [] then Err(MissingColumns(missing))
      else if |records| > 1 then Err(ShapeMismatch(|records|))
      else
        assert forall k :: k in RelevantColumns ==> k in records[0];
        TableFromRecord(records[0])
  }

  /** Select, rename, reorder and round, on the one record there is. */
  function TableFromRecord(record: NutrientRecord): (r: Result<seq<PlateRow>, PlateError>)
    requires forall k :: k in RelevantColumns ==> k in record
    ensures r.Err? ==> r.error.MissingColumns?
    ensures r.Ok? ==> |r.value| == |OrderedColumns|
    ensures r.Ok? ==> forall i :: 0 <= i < |r.value| ==> r.value[i].nutrient == OrderedColumns[i]
  {
    var selected := SelectColumns(record, RelevantColumns);
    match ReorderColumns(RenameColumns(selected, ColumnRenameMapping), OrderedColumns)
    case Err(absent) => Err(MissingColumns(absent))
    case Ok(cols) => Ok(RoundColumns(cols))
  }

  lemma {:induction false} ColumnNamedDistinct(cols: seq<Column>, i: nat)
    requires i < |cols| && Distinct(Names(cols))
    ensures ColumnNamed(cols, cols[i].name) == Some(cols[i].value)
  {
    if i > 0 {
      assert Names(cols)[0] != Names(cols)[i];
      assert Names(cols[1..]) == Names(cols)[1..];
      ColumnNamedDistinct(cols[1..], i - 1);
    }
  }

  /** Renaming the selected provider columns gives the display labels in
      display order, so the reorder step cannot fail and keeps every column
      where it is. */
  lemma RenamedSelectionInOrder(record: NutrientRecord)
    requires forall k :: k in RelevantColumns ==> k in record
    ensures var renamed := RenameColumns(SelectColumns(record, RelevantColumns), ColumnRenameMapping);
            && Names(renamed) == OrderedColumns
            && forall i :: 0 <= i < 10 ==> ColumnNamed(renamed, OrderedColumns[i]) == Some(record[RelevantColumns[i]])
  {
    ColumnRenameMappingOrder();
    NutrientMappingOrder();
    var renamed := RenameColumns(SelectColumns(record, RelevantColumns), ColumnRenameMapping);
    assert Names(renamed) == OrderedColumns;
    forall i | 0 <= i < 10
      ensures ColumnNamed(renamed, OrderedColumns[i]) == Some(record[RelevantColumns[i]])
    {
      ColumnNamedDistinct(renamed, i);
    }
  }

  /** The selected, renamed and reordered columns of a record carrying every
      provider key: the i-th display label with the i-th provider amount. */
  lemma TableFromRecordRows(record: NutrientRecord)
    requires forall k :: k in RelevantColumns ==> k in record
    ensures TableFromRecord(record).Ok?
    ensures var rows := TableFromRecord(record).value;
            && |rows| == 10
            && forall i :: 0 <= i < 10 ==>
                 rows[i] == PlateRow(OrderedColumns[i], RoundHalfEven(record[RelevantColumns[i]]))
  {
    RenamedSelectionInOrder(record);
    var renamed := RenameColumns(SelectColumns(record, RelevantColumns), ColumnRenameMapping);
    var reordered := ReorderColumns(renamed, OrderedColumns);
    assert reordered.Ok?;
    var rows := RoundColumns(reordered.value);
    forall i | 0 <= i < 10
      ensures rows[i] == PlateRow(OrderedColumns[i], RoundHalfEven(record[RelevantColumns[i]]))
    {
      assert Names(reordered.value)[i] == OrderedColumns[i];
      RoundHalfEvenUnique(reordered.value[i].value, rows[i].quantity);
    }
  }

  /** With one record carrying every provider key, only the column steps remain. */
  lemma NormalisePlateOfOne(record: NutrientRecord)
    requires forall k :: k in RelevantColumns ==> k in record
    ensures NormalisePlate([record]) == TableFromRecord(record)
  {
    forall k | k in RelevantColumns ensures Carried([record], k) {
      assert [record][0] == record;
    }
    MissingKeysEmpty([record], RelevantColumns);
  }

  /** The reorder step never fails on the renamed selection. */
  lemma TableFromRecordOk(record: NutrientRecord)
    requires forall k :: k in RelevantColumns ==> k in record
    ensures TableFromRecord(record).Ok?
  {
    RenamedSelectionInOrder(record);
  }

  /** A single record carrying all ten provider keys gives exactly ten rows: the
      i-th display label with the i-th provider amount, rounded half to even. */
  lemma NormalisePlateRows(record: NutrientRecord)
    requires forall k :: k in RelevantColumns ==> k in record
    ensures NormalisePlate([record]).Ok?
    ensures var rows := NormalisePlate([record]).value;
            && |rows| == 10
            && forall i :: 0 <= i < 10 ==>
                 rows[i] == PlateRow(OrderedColumns[i], RoundHalfEven(record[RelevantColumns[i]]))
  {
    NormalisePlateOfOne(record);
    TableFromRecordRows(record);
  }

  /** Provider key `k` is carried by at least one record. */
  predicate Carried(records: seq<NutrientRecord>, k: string)
  {
    exists j :: 0 <= j < |records| && k in records[j]
  }

  lemma {:induction false} MissingKeysEmpty(records: seq<NutrientRecord>, keys: seq<string>)
    requires forall k :: k in keys ==> Carried(records, k)
    ensures MissingKeys(records, keys) == []
  {
    if keys != [] {
      assert Carried(records, keys[0]);
      MissingKeysEmpty(records, keys[1..]);
    }
  }

  /** The table is built exactly when there is one record carrying every
      provider key; an empty list is its own error. */
  lemma NormalisePlateSucceeds(records: seq<NutrientRecord>)
    ensures NormalisePlate(records).Ok? <==>
              |records| == 1 && forall k :: k in RelevantColumns ==> k in records[0]
    ensures records == [] ==> NormalisePlate(records) == Err(NoNutrientData)
  {
    if records == [] {
    } else if |records| == 1 && forall k :: k in RelevantColumns ==> k in records[0] {
      assert records == [records[0]];
      NormalisePlateOfOne(records[0]);
      TableFromRecordOk(records[0]);
    } else if |records| == 1 {
      var k :| k in RelevantColumns && k !in records[0];
      assert !Carried(records, k);
      assert k in MissingKeys(records, RelevantColumns);
    }
  }

  /** Selecting fails with exactly the provider keys no record carries. */
  lemma NormalisePlateMissing(records: seq<NutrientRecord>)
    requires records != []
    requires exists k :: k in RelevantColumns && !Carried(records, k)
    ensures NormalisePlate(records).Err? && NormalisePlate(records).error.MissingColumns?
    ensures forall k :: k in NormalisePlate(records).error.keys <==> k in RelevantColumns && !Carried(records, k)
  {
    var k :| k in RelevantColumns && !Carried(records, k);
    assert k in MissingKeys(records, RelevantColumns);
  }

  /** Several records carrying every key between them fail on the column count. */
  lemma NormalisePlateSeveralRecords(records: seq<NutrientRecord>)
    requires |records| > 1
    requires forall k :: k in RelevantColumns ==> Carried(records, k)
    ensures NormalisePlate(records) == Err(ShapeMismatch(|records|))
  {
    MissingKeysEmpty(records, RelevantColumns);
  }
}
