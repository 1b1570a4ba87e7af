# Meal analysis: reconciling daily nutrient targets with a photographed plate

This project models, in Dafny, the computational core of the meal analysis
page of a Streamlit nutrition app (`meal_analysis.py`). The page asks a
remote service what recipe is on a photographed plate. It then asks for that
recipe's nutrient record and reconciles it with the user's daily nutrient
targets. The targets come from an earlier page as a table of free-text
strings such as "300g depending on activity level". The result is a table of
remaining daily intake per nutrient, and its "Remaining Daily Intake" column
is posted to a recipe recommender.

The model has five parts:

- **Rounding**: numpy/pandas `round(0)` as round-half-to-even on reals. It is
  proved nearest, ties to even, unique, symmetric under negation and
  monotone.
- **IntakeText**: the `str.extract(r"([\d\.]+)").astype(float)` step. The
  first maximal run of digits and dots is extracted. It is characterised
  exactly: it is unique, and no run means NaN, never 0. Python's `float` on
  such a run is a partial `ParseDecimal`. A run like "." or "1.2.3" makes
  the whole column's conversion raise, and the error reports the first bad
  run in row order.
- **NutrientLabels** and **Plate**: the fixed naming tables, and the plate
  table built from the nutrient records. Ten provider keys are selected,
  renamed to display labels, reordered and rounded. This yields ten
  `(label, int)` rows, or the error the code raises.
- **Reconcile**: canonical names are renamed to display labels. Detected
  amounts are subtracted from targets label by label; this is modelled as a
  map that is NaN (`None`) on labels found in only one table. The output
  table is then assembled positionally, and the lemmas prove that it agrees
  with the label-keyed difference whenever both tables carry the same
  sequence of distinct labels.
- **Confidence**: the three-way branch on the classifier's confidence. It is
  a total, disjoint partition of the reals.

The session's daily-intake DataFrame is modelled as a class,
`MealAnalysis.DailyIntakeTable`. `remaining_nutrients_manual` adds the
"Daily Intake (Value)" column to it in place, at most once: a column that
is there is never recomputed, and a failed conversion adds nothing.
`MealAnalysis.GetNutrientsAndKnn` runs the data path of
`get_nutrients_and_KNN` from the records to the recommender vector.
`MealAnalysis.CanonicalTablesLineUp` proves the end-to-end result for a
target table in canonical order.

Quantities are `real`. A pandas NaN is `Option.None`. Python exceptions are
`Result.Err` values.

The model follows the code as written, in particular:

- Intake text with no digit or dot gives NaN, not an error; a stray dot
  makes the conversion raise.
- A nutrient missing from the plate record raises a `KeyError`. It does not
  default to 0.
- Provider keys outside the ten are dropped by the column selection. They
  are not rejected.
- Rounding is half to even throughout.

## Model

| member | source | states |
|---|---|---|
| `Rounding.RoundHalfEven` | meal_analysis.py:61-63 | the result is within 1/2 of the input, and even when the input is exactly half-way |
| `Rounding.RoundHalfEvenUnique` | meal_analysis.py:61-63 | any integer that is nearest with ties to even is the rounded value, so rounding is fully determined |
| `Rounding.RoundHalfEvenNegate` | meal_analysis.py:61-63 | rounding commutes with negation, so negative remaining amounts round symmetrically |
| `Rounding.RoundHalfEvenOfInt` | meal_analysis.py:128-133 | whole numbers are unchanged, so `astype(int)` after `round(0)` loses nothing |
| `Rounding.RoundHalfEvenMonotone` | meal_analysis.py:61-63 | rounding preserves order |
| `Rounding.RoundHalfEvenTies` | meal_analysis.py:61-63 | 0.5, 1.5, 2.5, -0.5 and -1.5 round to 0, 2, 2, 0 and -2 |
| `Rounding.RoundOpt` | meal_analysis.py:61-62 | a NaN rounds to NaN; a number rounds to the nearest integer with ties to even |
| `IntakeText.RunStart` | meal_analysis.py:44 | the index of the first `[\d\.]` character at or after the start, with none before it |
| `IntakeText.RunEnd` | meal_analysis.py:44 | the end of the maximal run of `[\d\.]` characters that starts at the given index |
| `IntakeText.ExtractRun` | meal_analysis.py:44 | the result is missing exactly when the text has no digit or dot; otherwise it is the first maximal run of digits and dots |
| `IntakeText.ExtractRunIsFirstMaximalRun` | meal_analysis.py:44 | any first maximal run of the text is what the extraction returns, so the extracted run is unique |
| `IntakeText.ParseDecimal` | meal_analysis.py:44 | conversion succeeds exactly on a string of digits and dots with at least one digit and at most one dot; the value is non-negative, and a string of digits alone gives its decimal value |
| `IntakeText.ParseDecimalScaled` | meal_analysis.py:44 | for a run with a dot, the converted value times ten to the number of digits after the dot is the value of the digits read without the dot, so "12.25" is 1225/100 |
| `IntakeText.DigitsValueConcat` | meal_analysis.py:44 | appending digits shifts the value left by their count: the value of `a + b` is the value of `a` times ten to `|b|`, plus the value of `b` |
| `IntakeText.DecimalShape` | meal_analysis.py:44 | a string is a valid decimal exactly when the parts before and after its first dot are digit strings that are not both empty |
| `IntakeText.DigitsValueOfNatToString` | meal_analysis.py:44 | the digit value of a number's decimal spelling is that number |
| `IntakeText.ParseNatToString` | meal_analysis.py:44 | converting the decimal spelling of any natural number gives that number back |
| `IntakeText.ParseDecimalAccepts` | meal_analysis.py:44 | "2.5", ".5" and "7." convert to 2.5, 0.5 and 7 |
| `IntakeText.ParseDecimalRejects` | meal_analysis.py:44 | "." and "1.2.3" make the conversion raise |
| `IntakeText.IntakeValue` | meal_analysis.py:44 | a cell converts exactly when it has no run or its first run is a valid decimal, and otherwise the error is that run; `IntakeText.IntakeValueMeaning` gives the full characterisation |
| `IntakeText.IntakeValueMeaning` | meal_analysis.py:44 | a cell is NaN exactly when it has no digit or dot; otherwise it is the conversion of its first maximal run, or the error naming that run |
| `IntakeText.ExtractColumn` | meal_analysis.py:44 | the column converts exactly when every cell does, and then holds each row's value in row order |
| `IntakeText.ExtractColumnFirstError` | meal_analysis.py:44 | a failed conversion reports the run of the first failing row, all rows before it converting |
| `IntakeText.IntakeValueLeadingNumber` | meal_analysis.py:44 | "300g depending on activity level" gives 300 |
| `IntakeText.IntakeValueNoDigits` | meal_analysis.py:44 | "approx protein" gives NaN, not 0 |
| `IntakeText.IntakeValueStrayDot` | meal_analysis.py:44 | "approx. 300" extracts "." and the conversion raises |
| `NutrientLabels.NutrientMappingKeys` | meal_analysis.py:29-40 | `nutrient_mapping` has exactly the ten distinct canonical names as keys |
| `NutrientLabels.NutrientMappingOrder` | meal_analysis.py:29-40 | `nutrient_mapping` sends the i-th canonical name to the i-th of the ten distinct display labels of `ordered_columns` |
| `NutrientLabels.NutrientMappingInjective` | meal_analysis.py:29-40 | two different canonical names never share a display label |
| `NutrientLabels.Rename` | meal_analysis.py:47 | a renamed label is one of the mapping's targets or the label itself; `NutrientLabels.RenameOutsideMapping` and `NutrientLabels.RenameCanonicalNames` say which |
| `NutrientLabels.RenameAll` | meal_analysis.py:47 | one label out per label in, each the rename of the label at the same position |
| `NutrientLabels.RenameOutsideMapping` | meal_analysis.py:47 | a label outside the mapping is kept as is, and renaming twice equals renaming once |
| `NutrientLabels.RenameCanonicalNames` | meal_analysis.py:47 | the canonical names in dictionary order rename to `ordered_columns` |
| `NutrientLabels.ColumnRenameMappingKeys` | meal_analysis.py:83-109 | `column_rename_mapping` has exactly the ten distinct `relevant_columns` as keys |
| `NutrientLabels.ColumnRenameMappingOrder` | meal_analysis.py:98-124 | `column_rename_mapping` sends the i-th provider key to the i-th entry of `ordered_columns` |
| `NutrientLabels.RenameTargetsAreOrderedColumns` | meal_analysis.py:29-124 | the values of both rename tables are exactly `ordered_columns` |
| `Plate.MissingKeys` | meal_analysis.py:95 | a key is reported missing exactly when it is selected and no record carries it |
| `Plate.SelectColumns` | meal_analysis.py:95 | the selection has the requested keys in order, with the record's amounts |
| `Plate.RenameColumns` | meal_analysis.py:110 | column names are renamed through the mapping and the values are kept |
| `Plate.ColumnNamed` | meal_analysis.py:125 | a column lookup fails exactly when no column has that name |
| `Plate.ReorderColumns` | meal_analysis.py:125 | reordering succeeds exactly when every requested name exists; the result is named as requested and each value is that of the column with that name |
| `Plate.PickColumns` | meal_analysis.py:125 | each picked column carries the requested name and the value of the column with that name |
| `Plate.Filter` | meal_analysis.py:125 | the names reported absent are exactly those requested and not present |
| `Plate.RoundColumns` | meal_analysis.py:128-133 | one row per column with the column's name and its amount rounded half to even |
| `Plate.ColumnNamedDistinct` | meal_analysis.py:125 | with distinct names, looking up a column's name returns that column's value |
| `Plate.RenamedSelectionInOrder` | meal_analysis.py:95-125 | the renamed selection is already in display order, and each label looks up its own provider amount |
| `Plate.TableFromRecord` | meal_analysis.py:95-133 | a built table has ten rows labelled with `ordered_columns` in order, and the only possible failure is a missing column; `Plate.TableFromRecordRows` shows it cannot fail and gives each row's amount |
| `Plate.TableFromRecordRows` | meal_analysis.py:83-133 | for a record with every provider key, the reorder cannot fail, and the table has ten rows: the i-th display label with the i-th provider amount rounded |
| `Plate.NormalisePlate` | meal_analysis.py:79-133 | an empty record list is its own error, and a built table comes from exactly one record and has ten rows labelled with `ordered_columns`; `Plate.NormalisePlateSucceeds`, `Plate.NormalisePlateMissing` and `Plate.NormalisePlateSeveralRecords` characterise the errors |
| `Plate.NormalisePlateRows` | meal_analysis.py:80-133 | a single record with every provider key gives exactly ten `(label, int)` rows in `ordered_columns` order |
| `Plate.MissingKeysEmpty` | meal_analysis.py:95 | nothing is missing when every key is carried by some record |
| `Plate.NormalisePlateSucceeds` | meal_analysis.py:79-143 | the plate table is built exactly when there is one record carrying all ten keys; an empty record list is its own error |
| `Plate.NormalisePlateMissing` | meal_analysis.py:95 | when some provider key is absent from every record, the error lists exactly the absent keys |
| `Plate.NormalisePlateSeveralRecords` | meal_analysis.py:131-132 | several records that carry every key between them fail when the two column names are assigned |
| `Reconcile.AlignedLabels` | meal_analysis.py:47 | one label per target row, in row order: the row's nutrient renamed through `nutrient_mapping`, or kept when the mapping lacks it |
| `Reconcile.Minus` | meal_analysis.py:54-55 | a NaN target gives NaN; otherwise remaining plus detected equals the target |
| `Reconcile.IndexOf` | meal_analysis.py:47-48 | the first position of a label in an index |
| `Reconcile.RemainingByLabel` | meal_analysis.py:54-56 | the label-keyed difference is defined exactly on the union of the two tables' labels; `Reconcile.RemainingAtSharedLabel` and `Reconcile.RemainingAtOneSidedLabel` give its values |
| `Reconcile.RemainingAtSharedLabel` | meal_analysis.py:54-56 | for a label each table carries once, remaining is target minus detected, before rounding |
| `Reconcile.RemainingAtOneSidedLabel` | meal_analysis.py:54-56 | a label present in only one table has no remaining value (NaN) |
| `Reconcile.RemainingTable` | meal_analysis.py:59-64 | one output row per target row; the Nutrient column is the renamed labels in input order; Original is the rounded target, Detected the rounded quantity, and Remaining is the target minus the quantity rounded half to even, possibly negative |
| `Reconcile.RemainingTableAgreesWithLabels` | meal_analysis.py:54-64 | with the same distinct label sequence on both sides, each row's Remaining is the label-keyed difference of its label, rounded |
| `Reconcile.OverTargetIsNegative` | meal_analysis.py:54-61 | a plate that exceeds the target by 1 or more gives a negative remaining value (no clamping) |
| `Reconcile.RecommenderInput` | meal_analysis.py:146-150 | the vector posted to the recommender is the Remaining column in row order, with the table's length |
| `Confidence.ClassifyChain` | meal_analysis.py:219-232 | the if/elif/elif chain always takes a branch |
| `Confidence.BandsPartition` | meal_analysis.py:219-232 | every confidence lies in exactly one of (0.8, inf), [0.6, 0.8] and (-inf, 0.6), and the chain picks that band |
| `Confidence.ClassifyMonotone` | meal_analysis.py:219-232 | a higher confidence never gets a lower band |
| `Confidence.Respond` | meal_analysis.py:219-232 | the nutrients are fetched at once exactly for high confidence, confirmation is asked exactly for moderate, a label is asked exactly for low, and only the low case drops the predicted recipe |
| `MealAnalysis.CachedIntakeValues` | meal_analysis.py:43-44 | an existing value column is returned unchanged; a new one is computed exactly when every row converts, and then holds each row's converted value in row order, NaN exactly where the text has no digit or dot |
| `MealAnalysis.Targets` | meal_analysis.py:47 | the target rows pair each nutrient name with its value |
| `MealAnalysis.DetectedFromPlate` | meal_analysis.py:51 | the plate quantities converted to float, labels kept |
| `MealAnalysis.DailyIntakeTable.constructor` | nutrition_form.py:60 | a fresh table from the daily-needs response, without the value column |
| `MealAnalysis.DailyIntakeTable.CacheIntakeValues` | meal_analysis.py:43-44 | the value column is added only when absent; a failed conversion leaves the table unchanged; names and texts never change |
| `MealAnalysis.DailyIntakeTable.RemainingNutrientsManual` | meal_analysis.py:15-69 | caches the value column as above and returns the reconciled table for the cached values, or the conversion error |
| `MealAnalysis.GetNutrientsAndKnn` | meal_analysis.py:72-155 | a plate error is returned without touching the table; an intake conversion error is returned with the value column left as it was; otherwise the column is cached and the recommender vector is computed from the reconciled table |
| `MealAnalysis.NormalisePlateLabels` | meal_analysis.py:113-132 | a built plate table is labelled with `ordered_columns` in order |
| `MealAnalysis.CanonicalTargetsAligned` | meal_analysis.py:29-47 | a target table in canonical order renames to `ordered_columns` |
| `MealAnalysis.CanonicalTablesLineUp` | meal_analysis.py:83-150 | a canonical target table and a complete plate record line up row for row; the recommender gets ten values, the i-th being the i-th target minus the i-th rounded plate amount, rounded half to even |

## Left out

- Streamlit rendering and widgets are UI and not modelled. This covers titles, tables, messages, buttons, the file uploader and the recipe list loop at meal_analysis.py:163-171.
- Page navigation through the session state and the "Go back" and relaunch callbacks are UI glue and not modelled.
- The HTTP calls (`/analyze-image`, `/tnutrients`, `/knn-recipes`) are network I/O. So are their status-code checks and the `try/except` around them. The nutrient records and the confidence are parameters instead.
- The simulated delay `time.sleep(random.uniform(1, 3))` is a clock with randomness and not modelled.
- IEEE floating point is left out: quantities are exact reals. A NaN confidence falls through every branch of the Python chain, but it cannot occur with reals.
- `[\d\.]` is modelled with ASCII digits only. Python's `\d` also matches other Unicode decimal digits.
- The "Description" column of the daily-intake table is display-only and not modelled.
- The session holding no daily-intake table (`st.session_state.get("df")` is `None`) is not modelled. The methods receive a table.
- Nutrient record amounts that are missing or not numeric (JSON null, strings) are not modelled. A record maps keys to reals.
- Reconcile.RemainingByLabel: with a label repeated within one table, the difference takes the first occurrence's value. pandas' behaviour on non-unique indexes is not modelled.
- Reconcile.RemainingTable: requires both tables to carry the same label sequence after renaming. When they differ, pandas aligns on the sorted label union, and the positional assembly then misaligns or raises. That realignment is not modelled.
- MealAnalysis.DailyIntakeTable.RemainingNutrientsManual: requires the same label sequence as RemainingTable, for the same reason.
- MealAnalysis.GetNutrientsAndKnn: requires the session's daily-intake table in canonical order, so that it lines up with the plate table. The source does not check this.
- The moderate band's confirmation button calls `get_nutrients_and_KNN`, and the low band's text input is never used. The model stops at `Confidence.Respond`.
