# Aroma profile editor and market-group editor: a Dafny model

This project models the logic of two admin user interfaces.

- **Aroma profile editor** (`src/firstProjectCode`). An ingredient's aroma records are shown as an editable table and drawn as an aroma wheel. A record carries the absolute measurements `fd` and `oav` and their relative shares `fdRelative` and `oavRelative`. The model covers:
  - the record arithmetic: column sums, the share recomputation after an edit, lookup by `(typeId, descriptorId)`, the "non-empty rows first" reorder, the scan for available data types and the `DATATYPE_MAP` pairing;
  - turning server profile records into table rows, the override payload sent for a create or an update, and the grouping of aroma types and molecules for the dot graph;
  - the Redux slice `aroma` as a state object whose methods are its case reducers;
  - the table's edit accumulator (pending edits, running total, renormalised shares);
  - the decisions of the page and its variant widgets: save or create a variant, the latest core version, the initial data type, variant selection through the URL, and the new-variant form.
- **Market-group editor** (`src/secondProjectCode/MarketGroups`). The model covers:
  - the sidebar's list: an in-place stable sort by `order`, drag-and-drop reordering in place with renumbering 1..n, and selection clearing on removal;
  - the add/remove delta sent when the back office changes a group's market types;
  - filtering of market types by search, tab and required parameters;
  - the set operations on a group's required parameters;
  - the removal of market types from a group and their numbered display;
  - the group-name sanitiser and the create modal's state.

JavaScript values are modelled in module `JsValues`:

- `Val` is `undefined`, `null`, a real number, or `NaN`. The arithmetic on `Val` is total and `NaN` absorbs. A division by zero yields `NaN`, so the model does not need a non-zero-denominator precondition on the table handler, whose inputs cannot guarantee one.
- Truthiness of optional numbers and strings is explicit.
- `===`, ASCII `toLowerCase`/`toUpperCase`, `includes` and `parseInt` are defined there too.

Components with state are classes whose methods are the handlers. Their `modifies` clauses and postconditions state the whole new state. Loops in the source (the `reduce`/`forEach` scans, the in-place sorts and splices, the table handler's nested `forEach`) are methods with loop invariants. Each is proved equal to a specification function, and the properties are proved as lemmas about that function. Server answers are parameters: `None` stands for a failed or empty answer.

One module per source file:

| module | source file |
|---|---|
| `AromaTypes` | `feature/aroma/types.ts` |
| `AromaConversion` | `feature/aroma/conversion.ts` |
| `AromaUtils` | `feature/aroma/utils.ts` |
| `AromaStoreTypes` | `feature/aroma/store/types.ts` |
| `AromaQuery` | `feature/aroma/store/query.ts` |
| `AromaReducer` | `feature/aroma/store/reducer.ts` |
| `AromaTable` | `admin/aroma/AromaTable.tsx` |
| `AromaViz` | `admin/aroma/AromaViz.tsx` |
| `DataTypeSelector` | `admin/aroma/Variant/DataTypeSelector.tsx` |
| `CreateVariantDialog` | `admin/aroma/Variant/CreateNewVariantDialog.tsx` |
| `ProfileSelector` | `admin/aroma/Variant/ProfileSelector.tsx` |
| `MarketGroupTypes` | market-group record shapes |
| `MarketGroupsPage` | `MarketGroups/index.tsx` |
| `MarketGroupsSidebar` | `MarketGroups/Sidebar/index.tsx` |
| `MarketTypesPanel` | `MarketGroups/MarketTypesPanel.tsx` |
| `MarketParams` | `MarketGroups/MarketParams.tsx` |
| `MarketTypesList` | `MarketGroups/MarketTypes.tsx` |
| `CreateMarketGroupModal` | `MarketGroups/Sidebar/CreateMarketGroupModal.tsx` |

`JsValues` and `SeqUtil` (filter, de-duplication, subsequence) are shared helpers.

## Model

| member | source | states |
|---|---|---|
| JsValues.ToNumber | src/firstProjectCode/feature/aroma/conversion.ts:45 | `Number(v)`: undefined becomes NaN, null becomes 0, and a number is kept |
| JsValues.ToNumberOrZero | src/firstProjectCode/feature/aroma/conversion.ts:66 | `Number(v ?? 0)`: a missing value is 0, and the result is NaN exactly when the value is NaN |
| JsValues.OrDefault | src/firstProjectCode/feature/aroma/conversion.ts:39 | `Number(v || d)`: a truthy value is kept, and any falsy one becomes the default |
| JsValues.Div | src/firstProjectCode/feature/aroma/conversion.ts:80 | the quotient of two numbers with a non-zero divisor; NaN otherwise |
| JsValues.Lower | src/secondProjectCode/MarketGroups/MarketTypesPanel.tsx:32 | `toLowerCase` keeps the length and lower-cases each character |
| JsValues.LowerContainsNoUpper | src/secondProjectCode/MarketGroups/MarketTypesPanel.tsx:32 | a string holding an ASCII capital never occurs in a lower-cased string |
| JsValues.LeadingDigits | src/firstProjectCode/admin/aroma/AromaViz.tsx:85 | the digit run `parseInt` reads: a prefix of the string, digits only, and stopping only at a non-digit or the end |
| SeqUtil.Filter | src/secondProjectCode/MarketGroups/MarketTypes.tsx:19 | `Array.filter`: an element is kept iff the test holds, every copy of a kept value survives and none of a dropped one |
| SeqUtil.FilterIsSubsequence | src/secondProjectCode/MarketGroups/MarketTypes.tsx:19 | a filtered list keeps the input's order |
| SeqUtil.Dedupe | src/secondProjectCode/MarketGroups/MarketParams.tsx:40 | `Array.from(new Set(xs))`: the same members, none twice |
| SeqUtil.DedupeFirstOccurrenceOrder | src/secondProjectCode/MarketGroups/MarketParams.tsx:40 | a `Set` iterates in insertion order: the values come in the order of their first occurrences |
| AromaTypes.FieldNamed | src/firstProjectCode/feature/aroma/types.ts:74-79 | the enum member whose value is a key exists iff the key is a key of `DATATYPE_MAP`, and its value is that key |
| AromaTypes.RelativeOf | src/firstProjectCode/feature/aroma/types.ts:84-85 | an absolute type's `DATATYPE_MAP` entry always exists and differs from it |
| AromaTypes.DataTypeMapInvolution | src/firstProjectCode/feature/aroma/types.ts:81-86 | `DATATYPE_MAP` applied twice to any enum value gives it back, and never maps a value to itself |
| AromaTypes.DataTypeMapPairs | src/firstProjectCode/feature/aroma/types.ts:81-86 | `fd`/`oav` map to `fdRelative`/`oavRelative`, and back |
| AromaTypes.DataTypeMapKeys | src/firstProjectCode/feature/aroma/types.ts:81-86 | a string has a mapping iff it is one of the four enum values |
| AromaTypes.FieldNameInjective | src/firstProjectCode/feature/aroma/types.ts:74-79 | the enum values are distinct strings |
| AromaTypes.DataTypeIsAbsolute | src/firstProjectCode/feature/aroma/types.ts:88 | an `AromaDataType` maps to a relative field |
| AromaTypes.Set | src/firstProjectCode/admin/aroma/AromaTable.tsx:97 | `{ ...record, [field]: v }` changes that field only and keeps the record's key |
| AromaConversion.SumAromaValues | src/firstProjectCode/feature/aroma/conversion.ts:64-69 | `getSumAromaValues` is always a number or NaN |
| AromaConversion.SumAromaValuesAppend | src/firstProjectCode/feature/aroma/conversion.ts:64-69 | the empty list sums to 0, and appending a row adds `Number(row[field] ?? 0)` |
| AromaConversion.SumAromaValuesIsTotal | src/firstProjectCode/feature/aroma/conversion.ts:64-69 | without NaN in the column, the sum is the real column total |
| AromaConversion.SumAromaValuesNaN | src/firstProjectCode/feature/aroma/conversion.ts:64-69 | one NaN in the column makes the sum NaN |
| AromaConversion.ColumnFiniteAt | src/firstProjectCode/feature/aroma/conversion.ts:64-69 | a column is finite iff no row holds NaN |
| AromaConversion.ColumnTotalReplace | src/firstProjectCode/admin/aroma/AromaTable.tsx:102-103 | replacing one row changes the total by the difference of its values |
| AromaConversion.CalculateRelativeValue | src/firstProjectCode/feature/aroma/conversion.ts:71-85 | for `fd`/`oav`, a positive new value whose old value the total covers gets a share in (0, 1], and an unchanged non-zero value gets value/total |
| AromaConversion.ShareBound | src/firstProjectCode/feature/aroma/conversion.ts:80 | `a / (s - c + a)` lies in (0, 1] when `a > 0` and `s >= c` |
| AromaConversion.RelativeValueBranches | src/firstProjectCode/feature/aroma/conversion.ts:78-84 | absolute fields give `new'/(sum - cur' + new')`, other fields `sum * new'`, with 0.01 for falsy values; `currentRelativeValue` never matters |
| AromaConversion.FirstKeyIndex | src/firstProjectCode/feature/aroma/conversion.ts:88 | the index of the first record with the target's key, or -1 when there is none |
| AromaConversion.FindAromaRecordInArray | src/firstProjectCode/feature/aroma/conversion.ts:87-89 | the first record whose `typeId` and `descriptorId` both match, or `{}` (None) iff none does |
| AromaConversion.BoostNotEmptyRows | src/firstProjectCode/feature/aroma/conversion.ts:91-97 | sorts in place and returns the same array: a permutation, with rows with a truthy field first; unchanged if no row has one |
| AromaConversion.ToAroma | src/firstProjectCode/feature/aroma/conversion.ts:33-57 | `rel` is `Number(row[field]) || 0`; index and key are carried over |
| AromaConversion.ToIngredient | src/firstProjectCode/feature/aroma/conversion.ts:17-31 | `totalPd` is the column sum; one aroma per row, with its index and paired relative value; name is `name`, else `descriptor`, else "unknown" |
| AromaUtils.PushIfNew | src/firstProjectCode/feature/aroma/utils.ts:14-16 | a push guarded by `indexOf === -1` adds only a new member and keeps the list duplicate-free |
| AromaUtils.ScanFields | src/firstProjectCode/feature/aroma/utils.ts:11-17 | the inner `forEach` adds exactly the enum values the row defines |
| AromaUtils.Scan | src/firstProjectCode/feature/aroma/utils.ts:9-20 | the `reduce` result has no duplicates |
| AromaUtils.GetAvailableDataTypes | src/firstProjectCode/feature/aroma/utils.ts:8-22 | the nested loops compute `AvailableDataTypes` |
| AromaUtils.NotRelativeIsAbsolute | src/firstProjectCode/feature/aroma/utils.ts:21 | the "relative" filter keeps exactly `oav` and `fd` |
| AromaUtils.ContainsNoLonger | src/firstProjectCode/feature/aroma/utils.ts:21 | `indexOf` finds only strings no longer than the text |
| AromaUtils.ContainsAt | src/firstProjectCode/feature/aroma/utils.ts:21 | a string found at a position is found |
| AromaUtils.FirstDefining | src/firstProjectCode/feature/aroma/utils.ts:14 | the first record defining a field, or the number of records when none does |
| AromaUtils.FilterPushIfNew | src/firstProjectCode/feature/aroma/utils.ts:14-21 | for any filter, filtering after a push is pushing after the filter when the filter keeps the field, and is the plain filter otherwise |
| AromaUtils.ScanFieldsUnrolled | src/firstProjectCode/feature/aroma/utils.ts:11-17 | one row is four push attempts in enum declaration order |
| AromaUtils.FilterFourPushes | src/firstProjectCode/feature/aroma/utils.ts:11-21 | of the four attempts, the filter sees only those for `oav` and `fd` |
| AromaUtils.ScanStep | src/firstProjectCode/feature/aroma/utils.ts:9-21 | one more record pushes its `oav`, then its `fd` |
| AromaUtils.FirstDefiningStep | src/firstProjectCode/feature/aroma/utils.ts:14 | where a field is first defined, once one more record is seen |
| AromaUtils.OrderedTypesStep | src/firstProjectCode/feature/aroma/utils.ts:10-17 | the closed form agrees with one more pair of pushes |
| AromaUtils.AvailableDataTypesShape | src/firstProjectCode/feature/aroma/utils.ts:8-22 | the result in closed form: first-seen order across records, `oav` before `fd` within a record |
| AromaUtils.AvailableDataTypesBounds | src/firstProjectCode/feature/aroma/utils.ts:8-22 | only `oav`/`fd`, no duplicates, at most two, none for no records |
| AromaUtils.AvailableDataTypesMember | src/firstProjectCode/feature/aroma/utils.ts:11-17 | a type is listed iff it is `oav` or `fd` and some record has it `!== undefined` (null counts) |
| AromaQuery.OverrideOf | src/firstProjectCode/feature/aroma/store/query.ts:57-58 | the always-false `typeof` test: the override is read, never the original |
| AromaQuery.ConvertRecord | src/firstProjectCode/feature/aroma/store/query.ts:55-61 | a row takes the overrides, the given preparation id and its index as id, and keeps the rest |
| AromaQuery.MapRecords | src/firstProjectCode/feature/aroma/store/query.ts:55-61 | one converted row per record, in order |
| AromaQuery.ConvertIgnoresOriginal | src/firstProjectCode/feature/aroma/store/query.ts:57-58 | changing a measurement's `original` never changes the row |
| AromaQuery.ConvertAromaRecordsToTableRows | src/firstProjectCode/feature/aroma/store/query.ts:49-64 | a permutation of the mapped rows with non-empty rows first; every row carries the preparation id and its pre-sort index |
| AromaQuery.ChooseDataType | src/firstProjectCode/feature/aroma/store/query.ts:39-45 | the requested type if given, else the first available one |
| AromaQuery.ChooseDataTypeFirstAvailable | src/firstProjectCode/feature/aroma/store/query.ts:39-45 | without a requested type: the measured field a record carries first (`oav` first within a record), or none |
| AromaQuery.FetchIngredientAromaVizRows | src/firstProjectCode/feature/aroma/store/query.ts:28-47 | the server's records (or none) converted under the chosen type |
| AromaQuery.OverrideValue | src/firstProjectCode/feature/aroma/store/query.ts:103-104 | `{override: Number(v)}` iff the value is truthy, so 0 is dropped |
| AromaQuery.OverrideRecords | src/firstProjectCode/feature/aroma/store/query.ts:100-105 | one override per record, keys kept, values present iff truthy |
| AromaQuery.PostAromaVariant | src/firstProjectCode/feature/aroma/store/query.ts:92-114 | an update names the variant and sends only the overrides; a create sends the profile with the overrides as records |
| AromaQuery.ZeroOverrideDropped | src/firstProjectCode/feature/aroma/store/query.ts:103 | a zero `fd` sends no override and is indistinguishable from a missing one |
| AromaQuery.MoleculeIds | src/firstProjectCode/feature/aroma/store/query.ts:83 | `mols.map((m) => m.moleculeId)` |
| AromaQuery.TypeNames | src/firstProjectCode/feature/aroma/store/query.ts:78 | each record's type, in order |
| AromaQuery.MoleculeMapContents | src/firstProjectCode/feature/aroma/store/query.ts:78-84 | a key per record type, holding that type's molecule ids concatenated in record order |
| AromaQuery.MoleculesOfTypeAbsent | src/firstProjectCode/feature/aroma/store/query.ts:83 | no record of a type, no molecules for it |
| AromaQuery.RouteDotGraphRow | src/firstProjectCode/feature/aroma/store/query.ts:86-89 | position -1 sets the main ingredient, a position above -1 adds another; below -1 neither |
| AromaQuery.GroupByTypeStep | src/firstProjectCode/feature/aroma/store/query.ts:78-84 | one more record lists its type unless already listed and appends its molecule ids under that type |
| AromaQuery.GroupByType | src/firstProjectCode/feature/aroma/store/query.ts:78-84 | the loop lists the types as `Dedupe` of the records' types (each once, in first-seen order by `DedupeFirstOccurrenceOrder`) and builds the molecule map |
| AromaQuery.FetchIngredientDotGraphRows | src/firstProjectCode/feature/aroma/store/query.ts:66-90 | records are fetched only when missing and the id is truthy; then grouped and routed |
| AromaReducer.AppendIfAbsentByName | src/firstProjectCode/feature/aroma/store/reducer.ts:53-57 | appends iff no variant has the name |
| AromaReducer.AppendIfAbsentByNameFacts | src/firstProjectCode/feature/aroma/store/reducer.ts:52-60 | afterwards a variant of that name exists, the existing one is kept, a second append changes nothing, and unique names stay unique |
| AromaReducer.WriteAt | src/firstProjectCode/feature/aroma/store/reducer.ts:96 | `others[position] = row`: the slot is set, the array grows with holes, other slots are kept |
| AromaReducer.AromaState.constructor | src/firstProjectCode/feature/aroma/store/reducer.ts:19-31 | the state is `initialState` |
| AromaReducer.AromaState.SetAromaVizDataType | src/firstProjectCode/feature/aroma/store/reducer.ts:37-39 | sets `dataType`, nothing else |
| AromaReducer.AromaState.SetUpdateAromaViz | src/firstProjectCode/feature/aroma/store/reducer.ts:40-42 | sets `updateAromaViz`, nothing else |
| AromaReducer.AromaState.AddAromaProfileVariant | src/firstProjectCode/feature/aroma/store/reducer.ts:43-46 | `loading` iff id, version and profile are given; a missing payload `dataType` is filled from the state |
| AromaReducer.AromaState.LoadAromaProfileVariants | src/firstProjectCode/feature/aroma/store/reducer.ts:47-51 | empties the variants, nulls the current one, and sets `loading` iff id and version are given |
| AromaReducer.AromaState.SetCurrentVariant | src/firstProjectCode/feature/aroma/store/reducer.ts:52-60 | append-if-absent by name, then the payload is current; nothing else changes |
| AromaReducer.AromaState.SetAromaVariants | src/firstProjectCode/feature/aroma/store/reducer.ts:61-63 | the payload, or `[]` |
| AromaReducer.AromaState.SetChangedRows | src/firstProjectCode/feature/aroma/store/reducer.ts:64-66 | sets `changedRows`, nothing else |
| AromaReducer.AromaState.LoadAromaVizRows | src/firstProjectCode/feature/aroma/store/reducer.ts:67-74 | rows emptied iff the id is falsy; the payload keeps `dataType` only with an id |
| AromaReducer.AromaState.LoadDotGraphRow | src/firstProjectCode/feature/aroma/store/reducer.ts:75-82 | with `resetDotGraph` the dot graph is cleared; otherwise nothing changes |
| AromaReducer.AromaState.Reset | src/firstProjectCode/feature/aroma/store/reducer.ts:83 | back to `initialState` |
| AromaReducer.AromaState.SetDotGraphRows | src/firstProjectCode/feature/aroma/store/reducer.ts:84-98 | main replaced only when given, others only when an array is given, then the added row written at its position |
| AromaReducer.AromaState.SetError | src/firstProjectCode/feature/aroma/store/reducer.ts:99-102 | sets `error`, nothing else |
| AromaReducer.AromaState.SetIngredientAromaVizRows | src/firstProjectCode/feature/aroma/store/reducer.ts:103-109 | rows always replaced, `dataType` only when a type is given |
| AromaReducer.AromaState.SetLoading | src/firstProjectCode/feature/aroma/store/reducer.ts:110-112 | sets `loading`, nothing else |
| AromaReducer.AromaState.SetMainIngredient | src/firstProjectCode/feature/aroma/store/reducer.ts:113-115 | sets `mainIngredient` (`null` when missing), nothing else |
| AromaTable.Columns | src/firstProjectCode/admin/aroma/AromaTable.tsx:43-68 | the fixed columns, plus, with a data type, its editable column and its paired relative column |
| AromaTable.ShownAbsolute | src/firstProjectCode/admin/aroma/AromaTable.tsx:55 | a missing absolute value is shown as 0 |
| AromaTable.ShownRelative | src/firstProjectCode/admin/aroma/AromaTable.tsx:63 | a missing relative value is shown as 0.00001, never 0 |
| AromaTable.FindRowIndex | src/firstProjectCode/admin/aroma/AromaTable.tsx:83 | `findIndex` by id: the first match, or -1 |
| AromaTable.ValueOrZero | src/firstProjectCode/admin/aroma/AromaTable.tsx:90-95 | the destructuring default replaces only `undefined` (also that of `{}`) by 0 |
| AromaTable.EditedRow | src/firstProjectCode/admin/aroma/AromaTable.tsx:90-97 | the edited field holds the new value, its pair holds `calculateRelativeValue` of the matching record, and the rest is kept |
| AromaTable.FilterPendingDropsEitherKey | src/firstProjectCode/admin/aroma/AromaTable.tsx:99 | the `&&` filter drops every entry sharing the typeId OR the descriptorId, keeps order, and drops nothing for `{}` |
| AromaTable.Renormalise | src/firstProjectCode/admin/aroma/AromaTable.tsx:104 | every relative field becomes absolute over the total; all else is kept |
| AromaTable.RenormaliseKeepsTotal | src/firstProjectCode/admin/aroma/AromaTable.tsx:103-104 | renormalising leaves the absolute total unchanged |
| AromaTable.ApplyCellEdit | src/firstProjectCode/admin/aroma/AromaTable.tsx:85-105 | an edit applies iff the row is found and the field has a pair; then row `idx` is the edited row and the others are kept (keys and absolute fields), the total is that of these rows and every share is taken of it, and the pending list is filtered and gains the row unless it equals `rows[idx]` |
| AromaTable.ApplyCells | src/firstProjectCode/admin/aroma/AromaTable.tsx:85-106 | the inner loop computes `ApplyCellEdits` |
| AromaTable.ApplyCellEditsConsistent | src/firstProjectCode/admin/aroma/AromaTable.tsx:85-106 | after one row's cells the state is unchanged or consistent |
| AromaTable.ApplyRowEditsConsistent | src/firstProjectCode/admin/aroma/AromaTable.tsx:79-107 | after the handler the state is unchanged or consistent: later totals come from the updated rows |
| AromaTable.DivideSum | src/firstProjectCode/admin/aroma/AromaTable.tsx:104 | fractions over one total add up |
| AromaTable.ShareOfRow | src/firstProjectCode/admin/aroma/AromaTable.tsx:104 | a renormalised row's share is its value over the total |
| AromaTable.SharesTotal | src/firstProjectCode/admin/aroma/AromaTable.tsx:104 | the shares sum to the absolute total over the total |
| AromaTable.RelativeSharesSumToOne | src/firstProjectCode/admin/aroma/AromaTable.tsx:102-104 | after an applied edit the relative values sum to 1 when the total is non-zero |
| AromaTable.AromaTableView.constructor | src/firstProjectCode/admin/aroma/AromaTable.tsx:41-42 | keeps the given rows, type, preparation and version; no table rows and no pending edits yet |
| AromaTable.AromaTableView.OnRowsChanged | src/firstProjectCode/admin/aroma/AromaTable.tsx:112 | new rows are shown and the pending edits stay |
| AromaTable.AromaTableView.OnCellValueChange | src/firstProjectCode/admin/aroma/AromaTable.tsx:71-110 | without a data type nothing changes; else the row edits are applied in order from the `rows` total |
| AromaTable.AromaTableView.DiscardChanges | src/firstProjectCode/admin/aroma/AromaTable.tsx:115-118 | reloads by preparation, version and type |
| AromaTable.AromaTableView.ApplyChanges | src/firstProjectCode/admin/aroma/AromaTable.tsx:121-123 | the visualisation gets the rows shown, with no type |
| AromaTable.AromaTableView.UpdateVariant | src/firstProjectCode/admin/aroma/AromaTable.tsx:126 | exactly the pending edits are saved |
| AromaViz.SaveAction | src/firstProjectCode/admin/aroma/AromaViz.tsx:150-170 | opens the dialog iff there is no name or the name is "default" in any case; otherwise saves iff id, version and records are present, with `update` and the edited records |
| AromaViz.DefaultVariantIsNeverUpdated | src/firstProjectCode/admin/aroma/AromaViz.tsx:152 | the variants "Default", "DEFAULT" and "default" are never updated |
| AromaViz.LatestIndex | src/firstProjectCode/admin/aroma/AromaViz.tsx:85 | the position of the largest parsed version number, the first one among equals |
| AromaViz.ParsedVersions | src/firstProjectCode/admin/aroma/AromaViz.tsx:85 | `parseInt(v, 10)` of every version, position by position |
| AromaViz.CoreVersion | src/firstProjectCode/admin/aroma/AromaViz.tsx:84-87 | undefined iff there are no versions; otherwise the first of the largest |
| AromaViz.VersionToApply | src/firstProjectCode/admin/aroma/AromaViz.tsx:88 | the URL version if non-empty, else the core version |
| AromaViz.FirstMatchIndex | src/firstProjectCode/admin/aroma/AromaViz.tsx:106-109 | the first ingredient whose id matches the query id, or -1 when none does |
| AromaViz.MainIngredientData | src/firstProjectCode/admin/aroma/AromaViz.tsx:106-109 | the first ingredient whose id `===` the query id; `{}` iff none (always for NaN) |
| AromaViz.AutoLoadRows | src/firstProjectCode/admin/aroma/AromaViz.tsx:194-197 | loads iff id, version and type are all set |
| AromaViz.AutoLoadCleanup | src/firstProjectCode/admin/aroma/AromaViz.tsx:199-201 | the cleanup load carries no id and no type |
| AromaViz.WheelIngredient | src/firstProjectCode/admin/aroma/AromaViz.tsx:242-248 | a wheel iff there are rows, an id and a type; its total is the column sum |
| AromaViz.AromaVizPage.constructor | src/firstProjectCode/admin/aroma/AromaViz.tsx:93 | the dialog starts closed |
| AromaViz.AromaVizPage.HandleUpdateAromaProfile | src/firstProjectCode/admin/aroma/AromaViz.tsx:150-170 | opens the dialog or dispatches exactly as `SaveAction` decides |
| DataTypeSelector.InitialDataType | src/firstProjectCode/admin/aroma/Variant/DataTypeSelector.tsx:29-33 | nothing if a type is set or none is available; the only one, or `fd` for two or more |
| DataTypeSelector.InitialDataTypeIsAvailable | src/firstProjectCode/admin/aroma/Variant/DataTypeSelector.tsx:30-32 | the initial choice is an available type |
| DataTypeSelector.DataTypeSelectorView.constructor | src/firstProjectCode/admin/aroma/Variant/DataTypeSelector.tsx:22 | nothing is selected |
| DataTypeSelector.DataTypeSelectorView.OnPropsChange | src/firstProjectCode/admin/aroma/Variant/DataTypeSelector.tsx:29-35 | dispatches the initial choice; `selected` becomes the set type or stays |
| DataTypeSelector.DataTypeSelectorView.OnDataTypeChange | src/firstProjectCode/admin/aroma/Variant/DataTypeSelector.tsx:23-26 | dispatches exactly the chosen value |
| CreateVariantDialog.NewVariantDialog.constructor | src/firstProjectCode/admin/aroma/Variant/CreateNewVariantDialog.tsx:29-40 | empty form, closed |
| CreateVariantDialog.NewVariantDialog.OpenDialog | src/firstProjectCode/admin/aroma/Variant/CreateNewVariantDialog.tsx:71 | opens and keeps the form |
| CreateVariantDialog.NewVariantDialog.OnInputChange | src/firstProjectCode/admin/aroma/Variant/CreateNewVariantDialog.tsx:50-53 | only the field the input names changes |
| CreateVariantDialog.NewVariantDialog.OnDialogClose | src/firstProjectCode/admin/aroma/Variant/CreateNewVariantDialog.tsx:44-47 | "Cancel" closes and empties the form |
| CreateVariantDialog.NewVariantDialog.OnBackdropClose | src/firstProjectCode/admin/aroma/Variant/CreateNewVariantDialog.tsx:81 | a backdrop close only closes and keeps the typed values |
| CreateVariantDialog.NewVariantDialog.AddNewAromaProfileVariant | src/firstProjectCode/admin/aroma/Variant/CreateNewVariantDialog.tsx:56-61 | creates (no `update`) iff "Add" is enabled, then always closes and resets |
| ProfileSelector.Get | src/firstProjectCode/admin/aroma/Variant/ProfileSelector.tsx:43 | `URLSearchParams.get`: the first value of the key, or none |
| ProfileSelector.Others | src/firstProjectCode/admin/aroma/Variant/ProfileSelector.tsx:58 | the parameters of other keys |
| ProfileSelector.OthersIdempotent | src/firstProjectCode/admin/aroma/Variant/ProfileSelector.tsx:58 | removing a key twice is removing it once |
| ProfileSelector.OthersCount | src/firstProjectCode/admin/aroma/Variant/ProfileSelector.tsx:58 | no parameter of the key is left |
| ProfileSelector.SetParamFacts | src/firstProjectCode/admin/aroma/Variant/ProfileSelector.tsx:58 | after `set` the key occurs once with the new value, and other parameters are kept |
| ProfileSelector.QueryParamVariant | src/firstProjectCode/admin/aroma/Variant/ProfileSelector.tsx:42-45 | the `variant` parameter, or "Default" when absent or empty |
| ProfileSelector.FindVariant | src/firstProjectCode/admin/aroma/Variant/ProfileSelector.tsx:50 | the first variant with the selected name, or none iff no variant has it |
| ProfileSelector.OnProfileChange | src/firstProjectCode/admin/aroma/Variant/ProfileSelector.tsx:48-63 | effects iff a named variant matches and version and id are truthy; then make current, load by name, set `variant`, in that order |
| ProfileSelector.ProfileChangeRoundTrip | src/firstProjectCode/admin/aroma/Variant/ProfileSelector.tsx:52-59 | the new URL's variant parameter reads back the chosen name |
| ProfileSelector.Preselect | src/firstProjectCode/admin/aroma/Variant/ProfileSelector.tsx:66-70 | runs the change with the URL's variant only while no named profile is selected |
| ProfileSelector.PreselectSettles | src/firstProjectCode/admin/aroma/Variant/ProfileSelector.tsx:66-70 | a preselection that acts selects the URL's variant, after which it does nothing |
| ProfileSelector.OfferedVariants | src/firstProjectCode/admin/aroma/Variant/ProfileSelector.tsx:86-87 | exactly the variants with a non-empty name, in order |
| MarketGroupTypes.Refs | src/secondProjectCode/MarketGroups/MarketTypesPanel.tsx:95-96 | `{id, parameters}` of each type, in order |
| MarketGroupsPage.EnvOf | src/secondProjectCode/MarketGroups/index.tsx:26-27 | "backoffice" maps to `backoffice-market-groups`, anything else to `market-groups` |
| MarketGroupsPage.Without | src/secondProjectCode/MarketGroups/index.tsx:76-79 | the members of the first list not in the second |
| MarketGroupsPage.Difference | src/secondProjectCode/MarketGroups/index.tsx:76-79 | `difference(a, b)`: exactly the members of `a` not in `b`, each once |
| MarketGroupsPage.UpdateMarketTypesRequest | src/secondProjectCode/MarketGroups/index.tsx:64-95 | nothing without a selection; frontend sends the full list; back office removes iff the list shrinks (else assigns), sending the difference |
| MarketGroupsPage.RemoveDeltaReachesTarget | src/secondProjectCode/MarketGroups/index.tsx:74-79 | removing the sent delta from the current list leaves exactly the new list's members |
| MarketGroupsPage.AssignDeltaReachesTarget | src/secondProjectCode/MarketGroups/index.tsx:74-79 | adding the sent delta to the current list gives exactly the new list's members |
| MarketGroupsPage.SwapOnlyAssigns | src/secondProjectCode/MarketGroups/index.tsx:74-79 | swapping one type for another of equal count only assigns the new one |
| MarketGroupsPage.MarketGroupPage.constructor | src/secondProjectCode/MarketGroups/index.tsx:22-28 | the environment from `envType`, no types, no selection |
| MarketGroupsPage.MarketGroupPage.LoadMarketTypes | src/secondProjectCode/MarketGroups/index.tsx:29-42 | fetches the selected group's sport types iff it has a sport |
| MarketGroupsPage.MarketGroupPage.GetSelectedMarketGroup | src/secondProjectCode/MarketGroups/index.tsx:44-62 | `undefined` clears the selection without a fetch; otherwise the server's group is selected |
| MarketGroupsPage.MarketGroupPage.UpdateMarketTypes | src/secondProjectCode/MarketGroups/index.tsx:64-95 | sends `UpdateMarketTypesRequest`; the answer becomes the selection |
| MarketGroupsSidebar.WithOrderAppend | src/secondProjectCode/MarketGroups/Sidebar/index.tsx:43 | the groups of one order in a concatenation |
| MarketGroupsSidebar.InsertPermutes | src/secondProjectCode/MarketGroups/Sidebar/index.tsx:43 | inserting adds exactly the element |
| MarketGroupsSidebar.InsertSorted | src/secondProjectCode/MarketGroups/Sidebar/index.tsx:43 | inserting into a sorted list keeps it sorted |
| MarketGroupsSidebar.InsertStable | src/secondProjectCode/MarketGroups/Sidebar/index.tsx:43 | an inserted group goes after the equal-order ones |
| MarketGroupsSidebar.StableSortIsSorted | src/secondProjectCode/MarketGroups/Sidebar/index.tsx:43 | `sortByOrder` gives non-decreasing `order` |
| MarketGroupsSidebar.StableSortPermutes | src/secondProjectCode/MarketGroups/Sidebar/index.tsx:43 | the result is a permutation |
| MarketGroupsSidebar.StableSortIsStable | src/secondProjectCode/MarketGroups/Sidebar/index.tsx:43 | groups of equal `order` keep their relative order |
| MarketGroupsSidebar.SortedIsUnchanged | src/secondProjectCode/MarketGroups/Sidebar/index.tsx:43 | a sorted list is left as it is |
| MarketGroupsSidebar.InsertSplit | src/secondProjectCode/MarketGroups/Sidebar/index.tsx:43 | the insertion point is after the last group with order at most the new one's |
| MarketGroupsSidebar.InsertInto | src/secondProjectCode/MarketGroups/Sidebar/index.tsx:43 | one in-place insertion step of the sort |
| MarketGroupsSidebar.SortByOrder | src/secondProjectCode/MarketGroups/Sidebar/index.tsx:43 | sorts the array in place into the stable sort by `order` and returns it |
| MarketGroupsSidebar.RemoveAt | src/secondProjectCode/MarketGroups/Sidebar/index.tsx:57 | `splice(k, 1)` shortens by one |
| MarketGroupsSidebar.Move | src/secondProjectCode/MarketGroups/Sidebar/index.tsx:57-58 | the two splices put the source item at the destination |
| MarketGroupsSidebar.MoveIndex | src/secondProjectCode/MarketGroups/Sidebar/index.tsx:57-58 | where each item of the moved list comes from |
| MarketGroupsSidebar.MovePermutes | src/secondProjectCode/MarketGroups/Sidebar/index.tsx:57-58 | a move is a permutation |
| MarketGroupsSidebar.MoveKeepsOthers | src/secondProjectCode/MarketGroups/Sidebar/index.tsx:57-58 | all other items keep their relative order |
| MarketGroupsSidebar.Renumber | src/secondProjectCode/MarketGroups/Sidebar/index.tsx:59 | `order` becomes 1..n by position, and nothing else changes |
| MarketGroupsSidebar.RenumberSortedIsUnchanged | src/secondProjectCode/MarketGroups/Sidebar/index.tsx:59-60 | a renumbered list is sorted, so sorting the server's copy keeps its order |
| MarketGroupsSidebar.MoveInPlace | src/secondProjectCode/MarketGroups/Sidebar/index.tsx:57-58 | the splices done in place on the array |
| MarketGroupsSidebar.ShiftLeft | src/secondProjectCode/MarketGroups/Sidebar/index.tsx:57 | the elements after a removed one move down by one |
| MarketGroupsSidebar.ShiftRight | src/secondProjectCode/MarketGroups/Sidebar/index.tsx:58 | the elements after an inserted one move up by one |
| MarketGroupsSidebar.CreateErrorMessage | src/secondProjectCode/MarketGroups/Sidebar/index.tsx:157-159 | status 400 reports the group's name as existing; any other failure reports the error message |
| MarketGroupsSidebar.ConflictMessageNamesTheGroup | src/secondProjectCode/MarketGroups/Sidebar/index.tsx:158 | two "already exists" messages are equal only for the same name |
| MarketGroupsSidebar.Sidebar.constructor | src/secondProjectCode/MarketGroups/Sidebar/index.tsx:102-104 | no groups, not loading, nothing highlighted |
| MarketGroupsSidebar.Sidebar.OnDragEnd | src/secondProjectCode/MarketGroups/Sidebar/index.tsx:53-61 | no destination changes nothing; otherwise the array itself is moved in place, and the renumbered list goes to `updateOrder` |
| MarketGroupsSidebar.Sidebar.SetSortedMarketGroups | src/secondProjectCode/MarketGroups/Sidebar/index.tsx:118-127 | the server's list, sorted in place, becomes the state |
| MarketGroupsSidebar.Sidebar.LoadMarketGroups | src/secondProjectCode/MarketGroups/Sidebar/index.tsx:173-191 | for a chosen sport loading starts; on an answer the list is stored sorted, loading ends and the page selection is cleared; on a failed request loading stays on and nothing else changes; without a sport nothing happens |
| MarketGroupsSidebar.Sidebar.RemoveMarketGroup | src/secondProjectCode/MarketGroups/Sidebar/index.tsx:129-142 | loading starts; on an answer the list is stored sorted, loading ends and the page selection is cleared iff the removed group is the selected one; on a failed request loading stays on, the list is unchanged and nothing is cleared |
| MarketGroupsSidebar.Sidebar.OnMarketGroupSelect | src/secondProjectCode/MarketGroups/Sidebar/index.tsx:165-171 | highlights the group and passes it to the page |
| MarketTypesPanel.ListedTypes | src/secondProjectCode/MarketGroups/MarketTypesPanel.tsx:30-40 | a type is listed iff search, tab and required parameters all admit it |
| MarketTypesPanel.ListedTypesKeepOrder | src/secondProjectCode/MarketGroups/MarketTypesPanel.tsx:30-40 | listed types keep the sport's order |
| MarketTypesPanel.UppercaseSearchListsNothing | src/secondProjectCode/MarketGroups/MarketTypesPanel.tsx:32 | a search with a capital letter lists nothing |
| MarketTypesPanel.NoFilterListsAll | src/secondProjectCode/MarketGroups/MarketTypesPanel.tsx:32-34 | no search, the "All" tab and no required parameter list every type, in order |
| MarketTypesPanel.CheckedTypes | src/secondProjectCode/MarketGroups/MarketTypesPanel.tsx:46-49 | the sport's types whose id is checked, in the sport's order |
| MarketTypesPanel.MarketTypesPanelView.constructor | src/secondProjectCode/MarketGroups/MarketTypesPanel.tsx:24-28 | "All" tab, no search, the group's own types checked |
| MarketTypesPanel.MarketTypesPanelView.GroupChange | src/secondProjectCode/MarketGroups/MarketTypesPanel.tsx:42-44 | sets the tab only |
| MarketTypesPanel.MarketTypesPanelView.SearchChange | src/secondProjectCode/MarketGroups/MarketTypesPanel.tsx:76 | sets the search only |
| MarketTypesPanel.MarketTypesPanelView.ListMarketTypes | src/secondProjectCode/MarketGroups/MarketTypesPanel.tsx:30-40 | the `reduce` computes `ListedTypes` |
| MarketTypesPanel.MarketTypesPanelView.OnCheckMarketTypes | src/secondProjectCode/MarketGroups/MarketTypesPanel.tsx:46-49 | the checked list becomes the checked sport types |
| MarketTypesPanel.MarketTypesPanelView.Submit | src/secondProjectCode/MarketGroups/MarketTypesPanel.tsx:94-97 | sends exactly `{id, parameters}` of the checked list |
| MarketParams.AllParametersMember | src/secondProjectCode/MarketGroups/MarketParams.tsx:37-41 | a parameter is collected iff some type has it |
| MarketParams.DefaultSportParams | src/secondProjectCode/MarketGroups/MarketParams.tsx:37-41 | the loop then the `Set`: the collected parameters de-duplicated, in first-occurrence order (`SeqUtil.DedupeFirstOccurrenceOrder`) |
| MarketParams.DefaultSportParamsFacts | src/secondProjectCode/MarketGroups/MarketParams.tsx:37-41 | each parameter of any type, once |
| MarketParams.OfferedParameters | src/secondProjectCode/MarketGroups/MarketParams.tsx:89-90 | the sport's parameters not already required, each with all its copies, in the sport's order |
| MarketParams.AddedParameters | src/secondProjectCode/MarketGroups/MarketParams.tsx:48 | the required list with the value appended |
| MarketParams.RemovedParameters | src/secondProjectCode/MarketGroups/MarketParams.tsx:64 | every occurrence of the value removed, every copy of the others kept, in order |
| MarketParams.RemoveUndoesAdd | src/secondProjectCode/MarketGroups/MarketParams.tsx:48-64 | removing a value just added to a list without it gives the list back |
| MarketParams.MarketParamsView.constructor | src/secondProjectCode/MarketGroups/MarketParams.tsx:34-35 | not loading, empty select |
| MarketParams.MarketParamsView.SelectParameter | src/secondProjectCode/MarketGroups/MarketParams.tsx:17-25 | sends the appended list with `forbiddenParameters: []`, then stops loading and clears the select |
| MarketParams.MarketParamsView.RemoveParameter | src/secondProjectCode/MarketGroups/MarketParams.tsx:59-73 | sends the list without the value with `forbiddenParameters: []`, then stops loading and clears the select |
| MarketTypesList.RemoveMarketType | src/secondProjectCode/MarketGroups/MarketTypes.tsx:18-21 | every entry of the id removed, every copy of the others kept, in order |
| MarketTypesList.RemoveAbsentIsUnchanged | src/secondProjectCode/MarketGroups/MarketTypes.tsx:19 | removing an absent id sends the list unchanged |
| MarketTypesList.DisplayName | src/secondProjectCode/MarketGroups/MarketTypes.tsx:28 | the name of the first sport type with the id, or undefined iff none |
| MarketTypesList.DisplayRows | src/secondProjectCode/MarketGroups/MarketTypes.tsx:28-29 | one line per entry, numbered position + 1 |
| CreateMarketGroupModal.FirstDisallowed | src/secondProjectCode/MarketGroups/Sidebar/CreateMarketGroupModal.tsx:46 | the first code unit outside `[A-Za-z\d\s]`, if any |
| CreateMarketGroupModal.Utf16 | src/secondProjectCode/MarketGroups/Sidebar/CreateMarketGroupModal.tsx:46 | the typed character as the input's value holds it: itself below U+10000, else a high then a low surrogate |
| CreateMarketGroupModal.SanitiseName | src/secondProjectCode/MarketGroups/Sidebar/CreateMarketGroupModal.tsx:46 | a clean name is unchanged; otherwise only the first bad code unit is removed |
| CreateMarketGroupModal.TypingKeepsNameClean | src/secondProjectCode/MarketGroups/Sidebar/CreateMarketGroupModal.tsx:46 | typing a character below U+10000 after a clean name keeps it when allowed and drops it otherwise, so the name stays clean; typing one above leaves its lone low surrogate in the name |
| CreateMarketGroupModal.PasteKeepsSecondDisallowed | src/secondProjectCode/MarketGroups/Sidebar/CreateMarketGroupModal.tsx:46 | a value with two bad code units keeps the second |
| CreateMarketGroupModal.CreateMarketGroupModalView.constructor | src/secondProjectCode/MarketGroups/Sidebar/CreateMarketGroupModal.tsx:11-12 | hidden, empty name |
| CreateMarketGroupModal.CreateMarketGroupModalView.ShowModal | src/secondProjectCode/MarketGroups/Sidebar/CreateMarketGroupModal.tsx:14 | opening only shows the modal |
| CreateMarketGroupModal.CreateMarketGroupModalView.HandleClose | src/secondProjectCode/MarketGroups/Sidebar/CreateMarketGroupModal.tsx:15-18 | closing empties the name and hides |
| CreateMarketGroupModal.CreateMarketGroupModalView.OnNameChange | src/secondProjectCode/MarketGroups/Sidebar/CreateMarketGroupModal.tsx:46 | the sanitised value becomes the name |
| CreateMarketGroupModal.CreateMarketGroupModalView.CreateHandler | src/secondProjectCode/MarketGroups/Sidebar/CreateMarketGroupModal.tsx:19-22 | the action gets the current name, then the modal closes and "Create" is disabled |

## Left out

- Numbers: JavaScript numbers are reals plus `NaN`; every non-finite result (a division by zero, an infinity) is `NaN`. IEEE-754 rounding is not modelled.
- AromaViz.CoreVersion: requires every version to start with a digit; a `parseInt` of `NaN` and its effect on the comparator are not modelled.
- AromaConversion.BoostNotEmptyRows: the comparator is not a consistent order when both rows are non-empty, so the engine's order inside either group is unspecified; the model proves the permutation and the partition, and keeps one admissible order.
- Strings are sequences of Unicode characters, so a character above U+FFFF counts as one element rather than two UTF-16 code units; the create modal's name is the exception and is a sequence of code units, because its regular expression (no `u` flag) works on code units.
- JsValues.Lower: `toLowerCase` and `toUpperCase` change ASCII letters only.
- The `editRowsModel` object of the grid is a sequence of row edits in key order; JavaScript's integer-key ordering of objects is not modelled.
- `replaceItemInArray` is not part of this model; it is taken to return a copy with index `idx` replaced.
- A negative `rowPosition` written into the others array creates a non-element property in JavaScript; the model leaves the elements unchanged.
- `difference` from rambdax is not part of this model; it is modelled as Ramda's list difference under structural equality, de-duplicated.
- MarketGroupsSidebar.Sidebar.OnDragEnd: requires in-range source and destination indices, as the drag-and-drop library supplies them.
- All network calls (`get`, `post`, the back-office client, the sagas) are left out; a server answer is an input value, `None` meaning a failed or absent answer. URL building (`buildActionUrl`, route builders), `navigate`'s pathname and `replace`, and the encoding of `URLSearchParams.toString` are left out; the search string is a list of key/value pairs.
- The sidebar's own highlight is not cleared when the highlighted group is removed, as in the source; only the page's selection is cleared.
- DataTypeSelector's select values are enum fields, not arbitrary strings.
- The market-types panel stores the checked types as `{id, parameters}` at check time rather than as whole market types; submit sends the same projection.
- The market-type record's declaration is not part of this model; its fields are taken from their uses.
- A dot-graph row's id is an integer, truthy iff non-zero.
- Rendering, permissions, storage persistence (`storageGeneral`), message toasts, aroma-wheel layout arithmetic and the visualisation library's `patchIngredientJSON` are left out.
- The sagas' ordering and the cancellation races of `takeLatest` are concurrency and are left out.
