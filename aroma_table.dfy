/**
  * `admin/aroma/AromaTable.tsx`: the editable grid of aroma records. An edit
  * of an absolute or relative cell recomputes that row's paired value, keeps
  * the list of pending edits, recomputes the column total and renormalises
  * every row's relative share. "Update" shows the edited rows, "Save" passes
  * the pending edits on, "Discard" reloads the rows.
  */
module AromaTable {
  import opened JsValues
  import opened SeqUtil
  import opened AromaTypes
  import opened AromaStoreTypes
  import opened AromaConversion

  // ---------------------------------------------------------------------
  // Columns
  // ---------------------------------------------------------------------

  datatype Column = Column(field: string, headerName: string, editable: bool)

  /** `FIXED_COLUMNS` */
  const FixedColumns: seq<Column> := [Column("descriptor", "Descriptor", false), Column("type", "Type", false)]

  /** The grid's columns: the fixed ones, then, with a data type, its absolute and relative columns. */
  function Columns(dataType: Option<AromaDataType>): (cs: seq<Column>)
    ensures dataType.None? ==> cs == FixedColumns
    ensures dataType.Some? ==>
      && |cs| == 4 && cs[..2] == FixedColumns
      && cs[2] == Column(FieldName(dataType.value), Upper(FieldName(dataType.value)), true)
      && DataTypeMap(cs[2].field) == Some(RelativeOf(dataType.value))
      && cs[3].field == FieldName(RelativeOf(dataType.value)) && cs[3].editable
  {
    if dataType.None? then FixedColumns
    else
      var name := FieldName(dataType.value);
      FixedColumns + [Column(name, Upper(name), true),
                      Column(FieldName(RelativeOf(dataType.value)), Upper(name) + " normalised", true)]
  }

  /** The absolute column shows `value || 0`. */
  function ShownAbsolute(v: Val): (r: real)
    ensures v.Truthy() ==> r == v.n
    ensures !v.Truthy() ==> r == 0.0
  {
    OrDefault(v, 0.0)
  }

  /** The relative column shows `value || 0.00001`: a missing share is never shown as 0. */
  function ShownRelative(v: Val): (r: real)
    ensures r != 0.0
    ensures v.Truthy() ==> r == v.n
    ensures !v.Truthy() ==> r == 0.00001
  {
    OrDefault(v, 0.00001)
  }

  // ---------------------------------------------------------------------
  // One cell edit
  // ---------------------------------------------------------------------

  /** One field of an `editRowsModel` entry: the column key and `Number(value)`. */
  datatype CellEdit = CellEdit(field: string, value: Val)

  /** One entry of `editRowsModel`: the row id and its edited cells, in key order. */
  datatype RowEdit = RowEdit(rowId: int, cells: seq<CellEdit>)

  /** `aromas.findIndex((row) => Number(row.id) === Number(rowId))` */
  function FindRowIndex(aromas: seq<AromaRecord>, rowId: int): (idx: int)
    ensures -1 <= idx < |aromas|
    ensures idx >= 0 ==> aromas[idx].id == rowId
    ensures forall j :: 0 <= j < |aromas| && (idx < 0 || j < idx) ==> aromas[j].id != rowId
  {
    if aromas == [] then -1
    else if aromas[0].id == rowId then 0
    else
      var k := FindRowIndex(aromas[1..], rowId);
      if k < 0 then -1 else k + 1
  }

  /** `const { [field]: v = 0 } = record`: only `undefined` (also that of `{}`) defaults to 0. */
  function ValueOrZero(found: Option<AromaRecord>, f: Field): (v: Val)
    ensures found.Some? && !found.value.Get(f).Undefined? ==> v == found.value.Get(f)
    ensures found.None? || found.value.Get(f).Undefined? ==> v == Num(0.0)
  {
    if found.None? || found.value.Get(f).Undefined? then Num(0.0) else found.value.Get(f)
  }

  /**
    * `{ ...aromas[idx], [field]: value, [relField]: newRelValue }`, where the
    * new relative value is computed from the record of the same key in `rows`.
    */
  function EditedRow(rows: seq<AromaRecord>, row: AromaRecord, f: Field, rel: Field, value: Val, sum: Val): (u: AromaRecord)
    requires rel != f
    ensures var found := FindAromaRecordInArray(rows, row);
      u.Get(rel) == CalculateRelativeValue(ValueOrZero(found, f), value, ValueOrZero(found, rel), sum, FieldName(f))
    ensures u.Get(f) == value
    ensures forall g :: g != f && g != rel ==> u.Get(g) == row.Get(g)
    ensures u.typeId == row.typeId && u.descriptorId == row.descriptorId && u.id == row.id
  {
    var found := FindAromaRecordInArray(rows, row);
    var newRel := CalculateRelativeValue(ValueOrZero(found, f), value, ValueOrZero(found, rel), sum, FieldName(f));
    row.Set(f, value).Set(rel, newRel)
  }

  /**
    * `editRows.filter((i) => i.typeId !== typeId && i.descriptorId !== descriptorId)`
    * with the key of the found record; the empty record `{}` has an undefined
    * key, which every entry differs from.
    */
  function FilterPending(pending: seq<AromaRecord>, found: Option<AromaRecord>): seq<AromaRecord> {
    if found.None? then pending
    else Filter(pending, (i: AromaRecord) => i.typeId != found.value.typeId && i.descriptorId != found.value.descriptorId)
  }

  /**
    * Because the filter joins the two tests with `&&`, it drops every entry
    * that shares the typeId OR the descriptorId, keeps the rest in order, and
    * drops nothing when no record was found.
    */
  lemma FilterPendingDropsEitherKey(pending: seq<AromaRecord>, found: Option<AromaRecord>)
    ensures found.None? ==> FilterPending(pending, found) == pending
    ensures found.Some? ==> forall i :: 0 <= i < |pending| ==>
      (pending[i] in FilterPending(pending, found)
        <== pending[i].typeId != found.value.typeId && pending[i].descriptorId != found.value.descriptorId)
    ensures found.Some? ==> forall e :: e in FilterPending(pending, found) ==>
      e in pending && e.typeId != found.value.typeId && e.descriptorId != found.value.descriptorId
    ensures IsSubsequence(FilterPending(pending, found), pending)
  {
    if found.Some? {
      var p := (i: AromaRecord) => i.typeId != found.value.typeId && i.descriptorId != found.value.descriptorId;
      FilterIsSubsequence(pending, p);
      var r := FilterPending(pending, found);
      forall e | e in r
        ensures e in pending && e.typeId != found.value.typeId && e.descriptorId != found.value.descriptorId
      {
        var k :| 0 <= k < |r| && r[k] == e;
      }
    } else {
      IsSubsequenceRefl(pending);
    }
  }

  lemma {:induction false} IsSubsequenceRefl<T>(s: seq<T>)
    ensures IsSubsequence(s, s)
  {
    if s != [] {
      IsSubsequenceRefl(s[1..]);
    }
  }

  /** Every row's relative field is its absolute value over `sum`. */
  predicate Normalised(rows: seq<AromaRecord>, dt: AromaDataType, sum: Val) {
    forall i :: 0 <= i < |rows| ==> rows[i].Get(RelativeOf(dt)) == Div(ToNumber(rows[i].Get(dt)), sum)
  }

  /** `rowsToSet.map((row) => ({ ...row, [relDataType]: Number(row[dataType]) / sum }))` */
  function Renormalise(rows: seq<AromaRecord>, dt: AromaDataType, sum: Val): (r: seq<AromaRecord>)
    ensures |r| == |rows|
    ensures Normalised(r, dt, sum)
    ensures forall i :: 0 <= i < |rows| ==> forall g :: g != RelativeOf(dt) ==> r[i].Get(g) == rows[i].Get(g)
    ensures forall i :: 0 <= i < |rows| ==>
      r[i].id == rows[i].id && r[i].typeId == rows[i].typeId && r[i].descriptorId == rows[i].descriptorId
  {
    seq(|rows|, i requires 0 <= i < |rows| => rows[i].Set(RelativeOf(dt), Div(ToNumber(rows[i].Get(dt)), sum)))
  }

  /** Renormalising leaves the absolute column, hence its total, as it was. */
  lemma {:induction false} RenormaliseKeepsTotal(rows: seq<AromaRecord>, dt: AromaDataType, sum: Val)
    ensures SumAromaValues(Renormalise(rows, dt, sum), dt) == SumAromaValues(rows, dt)
  {
    if rows != [] {
      var init := rows[..|rows| - 1];
      RenormaliseKeepsTotal(init, dt, sum);
      assert Renormalise(rows, dt, sum)[..|rows| - 1] == Renormalise(init, dt, sum);
    }
  }

  /**
    * Renormalising after row `idx` is replaced: that row carries the new
    * row's absolute fields, the others their own, and every key stays.
    */
  lemma RenormaliseReplaced(aromas: seq<AromaRecord>, dt: AromaDataType, idx: nat, updated: AromaRecord, sum: Val)
    requires idx < |aromas|
    requires updated.id == aromas[idx].id && updated.typeId == aromas[idx].typeId
    requires updated.descriptorId == aromas[idx].descriptorId
    ensures var r := Renormalise(aromas[idx := updated], dt, sum);
      && |r| == |aromas|
      && (forall g :: g != RelativeOf(dt) ==> r[idx].Get(g) == updated.Get(g))
      && (forall i :: 0 <= i < |aromas| && i != idx ==>
            forall g :: g != RelativeOf(dt) ==> r[i].Get(g) == aromas[i].Get(g))
      && (forall i :: 0 <= i < |aromas| ==>
            r[i].id == aromas[i].id && r[i].typeId == aromas[i].typeId && r[i].descriptorId == aromas[i].descriptorId)
  {
    var rows := aromas[idx := updated];
    assert forall i :: 0 <= i < |aromas| && i != idx ==> rows[i] == aromas[i];
  }

  /** The handler's state between edits: the rows shown, the pending edits, the running total. */
  datatype EditState = EditState(initialRows: seq<AromaRecord>, editRows: seq<AromaRecord>, sum: Val)

  /** The running total is the absolute column's total of the rows shown, and every share is taken of it. */
  predicate Consistent(st: EditState, dt: AromaDataType) {
    st.sum == SumAromaValues(st.initialRows, dt) && Normalised(st.initialRows, dt, st.sum)
  }

  /** Whether the cell edit of `field` in the row at `idx` is applied. */
  predicate Applies(idx: int, field: string) {
    idx > -1 && DataTypeMap(field).Some?
  }

  /**
    * The body of the inner `forEach`: one edited cell of the row at `idx` of
    * `aromas` (the rows shown when the handler was created). `rows` is the
    * `rows` prop.
    */
  function ApplyCellEdit(rows: seq<AromaRecord>, aromas: seq<AromaRecord>, dt: AromaDataType,
                         st: EditState, idx: int, cell: CellEdit): (r: EditState)
    requires -1 <= idx < |aromas|
    ensures !Applies(idx, cell.field) ==> r == st
    ensures Applies(idx, cell.field) ==>
      var f, rel := FieldNamed(cell.field).value, DataTypeMap(cell.field).value;
      var updated := EditedRow(rows, aromas[idx], f, rel, cell.value, st.sum);
      && Consistent(r, dt)
      && |r.initialRows| == |aromas|
      && r.sum == SumAromaValues(aromas[idx := updated], dt)
      && (f != RelativeOf(dt) ==> r.initialRows[idx].Get(f) == cell.value)
      && (forall g :: g != RelativeOf(dt) ==> r.initialRows[idx].Get(g) == updated.Get(g))
      && (forall i :: 0 <= i < |aromas| && i != idx ==>
            forall g :: g != RelativeOf(dt) ==> r.initialRows[i].Get(g) == aromas[i].Get(g))
      && (forall i :: 0 <= i < |aromas| ==>
            && r.initialRows[i].id == aromas[i].id
            && r.initialRows[i].typeId == aromas[i].typeId
            && r.initialRows[i].descriptorId == aromas[i].descriptorId)
      && r.editRows == FilterPending(st.editRows, FindAromaRecordInArray(rows, aromas[idx]))
                       + (if idx < |rows| && StrictEquals(cell.value, rows[idx].Get(f))
                             && StrictEquals(updated.Get(rel), rows[idx].Get(rel))
                          then [] else [updated])
  {
    if !Applies(idx, cell.field) then st
    else
      var f, rel := FieldNamed(cell.field).value, DataTypeMap(cell.field).value;
      DataTypeMapInvolution(f);
      var found := FindAromaRecordInArray(rows, aromas[idx]);
      var updated := EditedRow(rows, aromas[idx], f, rel, cell.value, st.sum);
      var same := idx < |rows| && StrictEquals(cell.value, rows[idx].Get(f))
                  && StrictEquals(updated.Get(rel), rows[idx].Get(rel));
      var rowsToSet := aromas[idx := updated];
      var sum := SumAromaValues(rowsToSet, dt);
      RenormaliseKeepsTotal(rowsToSet, dt, sum);
      RenormaliseReplaced(aromas, dt, idx, updated, sum);
      EditState(Renormalise(rowsToSet, dt, sum),
                FilterPending(st.editRows, found) + (if same then [] else [updated]),
                sum)
  }

  /** The inner `forEach` over the edited cells of one row, in key order. */
  function ApplyCellEdits(rows: seq<AromaRecord>, aromas: seq<AromaRecord>, dt: AromaDataType,
                          st: EditState, idx: int, cells: seq<CellEdit>): EditState
    requires -1 <= idx < |aromas|
  {
    if cells == [] then st
    else ApplyCellEdit(rows, aromas, dt, ApplyCellEdits(rows, aromas, dt, st, idx, cells[..|cells| - 1]), idx,
                       cells[|cells| - 1])
  }

  /** The outer `forEach` over the rows of `editRowsModel`. */
  function ApplyRowEdits(rows: seq<AromaRecord>, aromas: seq<AromaRecord>, dt: AromaDataType,
                         st: EditState, edits: seq<RowEdit>): EditState
  {
    if edits == [] then st
    else
      var last := edits[|edits| - 1];
      ApplyCellEdits(rows, aromas, dt, ApplyRowEdits(rows, aromas, dt, st, edits[..|edits| - 1]),
                     FindRowIndex(aromas, last.rowId), last.cells)
  }

  lemma ApplyCellEditsStep(rows: seq<AromaRecord>, aromas: seq<AromaRecord>, dt: AromaDataType,
                           st: EditState, idx: int, cells: seq<CellEdit>, k: nat)
    requires -1 <= idx < |aromas| && k < |cells|
    ensures ApplyCellEdits(rows, aromas, dt, st, idx, cells[..k + 1])
         == ApplyCellEdit(rows, aromas, dt, ApplyCellEdits(rows, aromas, dt, st, idx, cells[..k]), idx, cells[k])
  {
    assert cells[..k + 1][..k] == cells[..k];
  }

  /**
    * The inner `forEach` of `onCellValueChange`: for each edited cell of the
    * row at `idx`, when it applies, the pending edits lose the entries sharing
    * a key component and gain the edited row unless it matches `rows[idx]`;
    * the rows shown become `aromas` with the edited row, renormalised.
    */
  method ApplyCells(rows: seq<AromaRecord>, aromas: seq<AromaRecord>, dt: AromaDataType,
                    st: EditState, idx: int, cells: seq<CellEdit>) returns (r: EditState)
    requires -1 <= idx < |aromas|
    ensures r == ApplyCellEdits(rows, aromas, dt, st, idx, cells)
  {
    var shown, pending, sum := st.initialRows, st.editRows, st.sum;
    var k := 0;
    while k < |cells|
      invariant 0 <= k <= |cells|
      invariant EditState(shown, pending, sum) == ApplyCellEdits(rows, aromas, dt, st, idx, cells[..k])
    {
      var cell := cells[k];
      ApplyCellEditsStep(rows, aromas, dt, st, idx, cells, k);
      var relField := DataTypeMap(cell.field);
      if idx > -1 && relField.Some? {
        var f := FieldNamed(cell.field).value;
        var rel := relField.value;
        DataTypeMapInvolution(f);
        var found := FindAromaRecordInArray(rows, aromas[idx]);
        var updated := EditedRow(rows, aromas[idx], f, rel, cell.value, sum);
        var same := idx < |rows| && StrictEquals(cell.value, rows[idx].Get(f))
                    && StrictEquals(updated.Get(rel), rows[idx].Get(rel));
        pending := FilterPending(pending, found) + (if same then [] else [updated]);
        var rowsToSet := aromas[idx := updated];
        sum := SumAromaValues(rowsToSet, dt);
        shown := Renormalise(rowsToSet, dt, sum);
      }
      k := k + 1;
    }
    assert cells[..k] == cells;
    r := EditState(shown, pending, sum);
  }

  /** Whatever the edits, the state afterwards is the one before or a consistent one. */
  lemma {:induction false} ApplyCellEditsConsistent(rows: seq<AromaRecord>, aromas: seq<AromaRecord>,
                                                    dt: AromaDataType, st: EditState, idx: int, cells: seq<CellEdit>)
    requires -1 <= idx < |aromas|
    ensures var r := ApplyCellEdits(rows, aromas, dt, st, idx, cells); r == st || Consistent(r, dt)
  {
    if cells != [] {
      ApplyCellEditsConsistent(rows, aromas, dt, st, idx, cells[..|cells| - 1]);
    }
  }

  /**
    * After the handler, either no edit applied and nothing changed, or the
    * running total is the total of the rows shown and every share is taken
    * of it: later totals come from the updated rows, not the `rows` prop.
    */
  lemma {:induction false} ApplyRowEditsConsistent(rows: seq<AromaRecord>, aromas: seq<AromaRecord>,
                                                   dt: AromaDataType, st: EditState, edits: seq<RowEdit>)
    ensures var r := ApplyRowEdits(rows, aromas, dt, st, edits); r == st || Consistent(r, dt)
  {
    if edits != [] {
      var init := edits[..|edits| - 1];
      var last := edits[|edits| - 1];
      ApplyRowEditsConsistent(rows, aromas, dt, st, init);
      ApplyCellEditsConsistent(rows, aromas, dt, ApplyRowEdits(rows, aromas, dt, st, init),
                               FindRowIndex(aromas, last.rowId), last.cells);
    }
  }

  /** The absolute value of a row is a number or `null`, so its share is a number. */
  predicate Measured(rows: seq<AromaRecord>, dt: AromaDataType) {
    forall i :: 0 <= i < |rows| ==> rows[i].Get(dt).Num? || rows[i].Get(dt).Null?
  }

  lemma DivideSum(x: real, a: real, t: real)
    requires t != 0.0
    ensures x / t + a / t == (x + a) / t
  {
    assert (x / t + a / t) * t == x + a;
  }

  /** A normalised row contributes its absolute amount over the total. */
  lemma ShareOfRow(row: AromaRecord, dt: AromaDataType, total: real)
    requires total != 0.0
    requires row.Get(dt).Num? || row.Get(dt).Null?
    requires row.Get(RelativeOf(dt)) == Div(ToNumber(row.Get(dt)), Num(total))
    ensures CellAmount(row, RelativeOf(dt)) == CellAmount(row, dt) / total
  {
  }

  /** Shares of a total are the values over it, summed: the column total over the total. */
  lemma {:induction false} SharesTotal(rows: seq<AromaRecord>, dt: AromaDataType, total: real)
    requires total != 0.0
    requires Measured(rows, dt)
    requires Normalised(rows, dt, Num(total))
    ensures ColumnTotal(rows, RelativeOf(dt)) == ColumnTotal(rows, dt) / total
  {
    if rows != [] {
      var init, last := rows[..|rows| - 1], rows[|rows| - 1];
      assert Measured(init, dt) && Normalised(init, dt, Num(total)) by {
        forall i | 0 <= i < |init| ensures init[i] == rows[i] { }
      }
      SharesTotal(init, dt, total);
      ShareOfRow(last, dt, total);
      DivideSum(ColumnTotal(init, dt), CellAmount(last, dt), total);
    }
  }

  /**
    * After an applied edit the relative shares sum to 1 whenever the total is
    * non-zero and every absolute value is a number or `null`.
    */
  lemma RelativeSharesSumToOne(st: EditState, dt: AromaDataType)
    requires Consistent(st, dt)
    requires Measured(st.initialRows, dt)
    requires st.sum.Num? && st.sum.n != 0.0
    ensures ColumnTotal(st.initialRows, RelativeOf(dt)) == 1.0
  {
    var rows := st.initialRows;
    assert ColumnFinite(rows, dt) by {
      ColumnFiniteAt(rows, dt);
    }
    SumAromaValuesIsTotal(rows, dt);
    SharesTotal(rows, dt, st.sum.n);
  }

  // ---------------------------------------------------------------------
  // The component
  // ---------------------------------------------------------------------

  /**
    * The table's props (`rows`, `dataType`, `productPreparationId`,
    * `version`) and its state: `initialRows`, the rows shown, and
    * `editRows.current`, the pending edits.
    */
  class AromaTableView {
    var rows: seq<AromaRecord>
    var dataType: Option<AromaDataType>
    var productPreparationId: int
    var version: string
    var initialRows: seq<AromaRecord>
    var editRows: seq<AromaRecord>

    /** The first render: no rows shown yet and no pending edits. */
    constructor (rows: seq<AromaRecord>, dataType: Option<AromaDataType>, productPreparationId: int, version: string)
      ensures this.rows == rows && this.dataType == dataType
      ensures this.productPreparationId == productPreparationId && this.version == version
      ensures initialRows == [] && editRows == []
    {
      this.rows := rows;
      this.dataType := dataType;
      this.productPreparationId := productPreparationId;
      this.version := version;
      initialRows := [];
      editRows := [];
    }

    /** `useEffect(() => setInitialRows([...rows]), [rows])`: new rows are shown; pending edits stay. */
    method OnRowsChanged(newRows: seq<AromaRecord>)
      modifies this
      ensures rows == newRows && initialRows == newRows
      ensures editRows == old(editRows) && dataType == old(dataType)
      ensures productPreparationId == old(productPreparationId) && version == old(version)
    {
      rows := newRows;
      initialRows := newRows;
    }

    /**
      * `onCellValueChange(editRowsModel)`: without a data type nothing
      * happens; otherwise the row edits are applied in order, starting from
      * the total of the `rows` prop.
      */
    method OnCellValueChange(editRowsModel: seq<RowEdit>)
      modifies this
      ensures rows == old(rows) && dataType == old(dataType)
      ensures productPreparationId == old(productPreparationId) && version == old(version)
      ensures dataType.None? ==> initialRows == old(initialRows) && editRows == old(editRows)
      ensures dataType.Some? ==>
        var st := ApplyRowEdits(rows, old(initialRows), dataType.value,
                                EditState(old(initialRows), old(editRows), SumAromaValues(rows, dataType.value)),
                                editRowsModel);
        initialRows == st.initialRows && editRows == st.editRows
    {
      if dataType.None? {
        return;
      }
      var dt := dataType.value;
      var aromas := initialRows;
      var sumAromaValues := SumAromaValues(rows, dt);
      var start := EditState(aromas, editRows, sumAromaValues);
      var i := 0;
      while i < |editRowsModel|
        invariant 0 <= i <= |editRowsModel|
        invariant rows == old(rows) && dataType == old(dataType)
        invariant productPreparationId == old(productPreparationId) && version == old(version)
        invariant EditState(initialRows, editRows, sumAromaValues)
               == ApplyRowEdits(rows, aromas, dt, start, editRowsModel[..i])
      {
        var edit := editRowsModel[i];
        var idx := FindRowIndex(aromas, edit.rowId);
        var after := ApplyCells(rows, aromas, dt, EditState(initialRows, editRows, sumAromaValues), idx, edit.cells);
        initialRows, editRows, sumAromaValues := after.initialRows, after.editRows, after.sum;
        assert editRowsModel[..i + 1][..i] == editRowsModel[..i];
        i := i + 1;
      }
      assert editRowsModel[..i] == editRowsModel;
    }

    /** `discardChanges`: reload the rows of this preparation, version and data type. */
    method DiscardChanges() returns (action: LoadPayload)
      ensures action == LoadPayload(Some(productPreparationId), version, dataType, None)
    {
      action := LoadPayload(Some(productPreparationId), version, dataType, None);
    }

    /** `applyChanges`: the visualisation gets a copy of the rows shown, with no type. */
    method ApplyChanges() returns (action: SetRowsPayload)
      ensures action.aromaVizRows == initialRows && action.dataType.None?
    {
      action := SetRowsPayload(initialRows, None);
    }

    /** `updateVariant`: exactly the pending edits are saved. */
    method UpdateVariant() returns (records: seq<AromaRecord>)
      ensures records == editRows
    {
      records := editRows;
    }
  }
}
