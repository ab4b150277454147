/**
  * `feature/aroma/conversion.ts`: summing a measurement column, the
  * relative-share recomputation after one value is edited, lookup of a
  * record by its (typeId, descriptorId) key, the "non-empty rows first"
  * in-place reorder, and the conversion of table rows to the ingredient
  * shape the aroma wheel draws.
  */
module AromaConversion {
  import opened JsValues
  import opened AromaTypes

  // ---------------------------------------------------------------------
  // getSumAromaValues
  // ---------------------------------------------------------------------

  /**
    * `getSumAromaValues(rows, field)`: the column total, a missing value
    * counting as 0. The field defaults to `fd`.
    */
  function SumAromaValues(rows: seq<AromaRecord>, field: Field := Fd): (r: Val)
    ensures r.IsNumber()
  {
    if rows == [] then Num(0.0)
    else Add(SumAromaValues(rows[..|rows| - 1], field), ToNumberOrZero(rows[|rows| - 1].Get(field)))
  }

  /** A column holds no `NaN`. */
  predicate ColumnFinite(rows: seq<AromaRecord>, field: Field) {
    rows == [] || (ColumnFinite(rows[..|rows| - 1], field) && !rows[|rows| - 1].Get(field).NaN?)
  }

  /** No row of a finite column holds `NaN`. */
  lemma {:induction false} ColumnFiniteAt(rows: seq<AromaRecord>, field: Field)
    ensures ColumnFinite(rows, field) <==> forall i :: 0 <= i < |rows| ==> !rows[i].Get(field).NaN?
  {
    if rows != [] {
      var init := rows[..|rows| - 1];
      ColumnFiniteAt(init, field);
      assert forall i :: 0 <= i < |init| ==> init[i] == rows[i];
    }
  }

  /** The value a row contributes to a column total: its number, or 0 when missing. */
  function CellAmount(r: AromaRecord, field: Field): real {
    if r.Get(field).Num? then r.Get(field).n else 0.0
  }

  /** The column total over the reals. */
  function ColumnTotal(rows: seq<AromaRecord>, field: Field): real {
    if rows == [] then 0.0 else ColumnTotal(rows[..|rows| - 1], field) + CellAmount(rows[|rows| - 1], field)
  }

  /** The empty list sums to 0, and appending a row adds its value (missing counts as 0). */
  lemma SumAromaValuesAppend(rows: seq<AromaRecord>, row: AromaRecord, field: Field)
    ensures SumAromaValues([], field) == Num(0.0)
    ensures SumAromaValues(rows + [row], field) == Add(SumAromaValues(rows, field), ToNumberOrZero(row.Get(field)))
  {
    assert (rows + [row])[..|rows|] == rows;
  }

  /** Without `NaN` in the column the sum is the real column total. */
  lemma {:induction false} SumAromaValuesIsTotal(rows: seq<AromaRecord>, field: Field)
    requires ColumnFinite(rows, field)
    ensures SumAromaValues(rows, field) == Num(ColumnTotal(rows, field))
  {
    if rows != [] {
      SumAromaValuesIsTotal(rows[..|rows| - 1], field);
    }
  }

  /** One `NaN` in the column makes the sum `NaN`. */
  lemma {:induction false} SumAromaValuesNaN(rows: seq<AromaRecord>, field: Field)
    requires !ColumnFinite(rows, field)
    ensures SumAromaValues(rows, field) == NaN
  {
    if !ColumnFinite(rows[..|rows| - 1], field) {
      SumAromaValuesNaN(rows[..|rows| - 1], field);
    }
  }

  /** Replacing one row changes the total by the difference of the two values. */
  lemma {:induction false} ColumnTotalReplace(rows: seq<AromaRecord>, idx: nat, row: AromaRecord, field: Field)
    requires idx < |rows|
    ensures ColumnTotal(rows[idx := row], field)
         == ColumnTotal(rows, field) - CellAmount(rows[idx], field) + CellAmount(row, field)
  {
    var last := |rows| - 1;
    if idx == last {
      assert rows[idx := row][..last] == rows[..last];
    } else {
      ColumnTotalReplace(rows[..last], idx, row, field);
      assert rows[idx := row][..last] == rows[..last][idx := row];
    }
  }

  // ---------------------------------------------------------------------
  // calculateRelativeValue
  // ---------------------------------------------------------------------

  /** `Number(x || '0.01')`: a falsy value is replaced by 0.01 so that no share divides by 0. */
  function Floor(x: Val): real {
    OrDefault(x, 0.01)
  }

  /**
    * `calculateRelativeValue(currentValue, newValue, currentRelativeValue, initialSumAromaValues, field)`.
    * For an absolute field the result is the edited value's share of the total
    * once the old value is swapped for the new one; for any other field it is
    * the total scaled by the new value.
    */
  function CalculateRelativeValue(currentValue: Val, newValue: Val, currentRelativeValue: Val,
                                  initialSumAromaValues: Val, field: string): (r: Val)
    ensures r.IsNumber()
    // a positive edit whose old value the total covers gets a share in (0, 1]
    ensures (field == "fd" || field == "oav") && initialSumAromaValues.Num?
            && Floor(newValue) > 0.0 && initialSumAromaValues.n >= Floor(currentValue)
            ==> r.Num? && 0.0 < r.n <= 1.0
    // an edit that keeps a non-zero value gets its plain share of the total
    ensures (field == "fd" || field == "oav") && newValue.Truthy() && currentValue == newValue
            && initialSumAromaValues.Num? && initialSumAromaValues.n != 0.0
            ==> r == Num(newValue.n / initialSumAromaValues.n)
  {
    if field == FieldName(Oav) || field == FieldName(Fd) then
      ShareBound(Floor(newValue), initialSumAromaValues, Floor(currentValue));
      Div(Num(Floor(newValue)), Add(Sub(initialSumAromaValues, Num(Floor(currentValue))), Num(Floor(newValue))))
    else
      Mul(initialSumAromaValues, Num(Floor(newValue)))
  }

  /** The share `a / (s - c + a)` of a positive amount `a` whose old value `c` the total `s` covers. */
  lemma ShareBound(a: real, s: Val, c: real)
    ensures a > 0.0 && s.Num? && s.n >= c ==> 0.0 < a / (s.n - c + a) <= 1.0
  {
    if a > 0.0 && s.Num? && s.n >= c {
      var d := s.n - c + a;
      assert d >= a;
      assert a / d <= 1.0 by {
        assert a / d * d == a;
      }
    }
  }

  /**
    * The two branches: an absolute field gets `new' / (sum - cur' + new')`, any
    * other field `sum * new'`, where `x'` is `x` when truthy and 0.01 otherwise;
    * the current relative value never takes part.
    */
  lemma RelativeValueBranches(cur: Val, newV: Val, rel1: Val, rel2: Val, sum: Val, field: string)
    ensures CalculateRelativeValue(cur, newV, rel1, sum, field) == CalculateRelativeValue(cur, newV, rel2, sum, field)
    ensures field == "fd" || field == "oav" ==>
      CalculateRelativeValue(cur, newV, rel1, sum, field)
        == Div(Num(Floor(newV)), Add(Sub(sum, Num(Floor(cur))), Num(Floor(newV))))
    ensures field != "fd" && field != "oav" ==>
      CalculateRelativeValue(cur, newV, rel1, sum, field) == Mul(sum, Num(Floor(newV)))
  {
  }

  // ---------------------------------------------------------------------
  // findAromaRecordInArray
  // ---------------------------------------------------------------------

  predicate SameKey(a: AromaRecord, b: AromaRecord) {
    a.typeId == b.typeId && a.descriptorId == b.descriptorId
  }

  /** The index of the first record with the target's key, or -1. */
  function FirstKeyIndex(rows: seq<AromaRecord>, target: AromaRecord): (i: int)
    ensures -1 <= i < |rows|
    ensures i >= 0 ==> SameKey(rows[i], target)
    ensures forall j :: 0 <= j < |rows| && (i < 0 || j < i) ==> !SameKey(rows[j], target)
  {
    if rows == [] then -1
    else if SameKey(rows[0], target) then 0
    else
      var k := FirstKeyIndex(rows[1..], target);
      if k < 0 then -1 else k + 1
  }

  /**
    * `findAromaRecordInArray(array, target)`: the first record whose typeId and
    * descriptorId both equal the target's; `None` stands for the empty record `{}`.
    */
  function FindAromaRecordInArray(rows: seq<AromaRecord>, target: AromaRecord): (r: Option<AromaRecord>)
    ensures r.None? <==> forall j :: 0 <= j < |rows| ==> !SameKey(rows[j], target)
    ensures r.Some? ==> exists i :: 0 <= i < |rows| && rows[i] == r.value
                                 && SameKey(rows[i], target)
                                 && forall j :: 0 <= j < i ==> !SameKey(rows[j], target)
  {
    var i := FirstKeyIndex(rows, target);
    if i < 0 then None else Some(rows[i])
  }

  // ---------------------------------------------------------------------
  // boostNotEmptyRows
  // ---------------------------------------------------------------------

  /** `row[field]` is truthy; an undefined field name reads `undefined`. */
  predicate NonEmptyIn(row: AromaRecord, field: Option<Field>) {
    field.Some? && row.Get(field.value).Truthy()
  }

  /** Rows whose field is truthy all come before the rows whose field is not. */
  ghost predicate NonEmptyFirst(s: seq<AromaRecord>, field: Option<Field>) {
    forall i, k :: 0 <= i < k < |s| && NonEmptyIn(s[k], field) ==> NonEmptyIn(s[i], field)
  }

  /**
    * `boostNotEmptyRows(array, field)`: reorders the array in place so that
    * rows with a truthy `field` come first, and returns the same array. The
    * engine's sort with the source's comparator fixes no order inside either
    * group; this model keeps one admissible order, and leaves an array without
    * a truthy row as it was.
    */
  method BoostNotEmptyRows(a: array<AromaRecord>, field: Option<Field>) returns (b: array<AromaRecord>)
    modifies a
    ensures b == a
    ensures multiset(a[..]) == multiset(old(a[..]))
    ensures NonEmptyFirst(a[..], field)
    ensures (forall i :: 0 <= i < a.Length ==> !NonEmptyIn(old(a[i]), field)) ==> a[..] == old(a[..])
  {
    var boundary, j := 0, 0;
    while j < a.Length
      invariant 0 <= boundary <= j <= a.Length
      invariant forall k :: 0 <= k < boundary ==> NonEmptyIn(a[k], field)
      invariant forall k :: boundary <= k < j ==> !NonEmptyIn(a[k], field)
      invariant forall k :: j <= k < a.Length ==> a[k] == old(a[k])
      invariant multiset(a[..]) == multiset(old(a[..]))
      invariant boundary == 0 ==> forall k :: 0 <= k < j ==> a[k] == old(a[k])
      invariant boundary > 0 ==> exists k :: 0 <= k < a.Length && NonEmptyIn(old(a[k]), field)
    {
      if NonEmptyIn(a[j], field) {
        assert NonEmptyIn(old(a[j]), field);
        SwapRows(a, boundary, j);
        boundary := boundary + 1;
      }
      j := j + 1;
    }
    b := a;
  }

  /** Exchanges two rows of the array. */
  method SwapRows(a: array<AromaRecord>, i: int, j: int)
    requires 0 <= i <= j < a.Length
    modifies a
    ensures a[i] == old(a[j]) && a[j] == old(a[i])
    ensures forall k :: 0 <= k < a.Length && k != i && k != j ==> a[k] == old(a[k])
    ensures multiset(a[..]) == multiset(old(a[..]))
  {
    a[i], a[j] := a[j], a[i];
  }

  // ---------------------------------------------------------------------
  // toIngredient / toAroma
  // ---------------------------------------------------------------------

  /** `ConvertedAroma`: one slice of the aroma wheel. */
  datatype ConvertedAroma = ConvertedAroma(
    rel: real,
    descriptorId: int, descriptorName: string, descriptorIndex: Val,
    typeId: int, typeName: string, typeIndex: Val,
    index: nat)

  /** `ConvertedIngredient`: the ingredient shape the visualisation library takes. */
  datatype ConvertedIngredient = ConvertedIngredient(
    ingredientId: Option<int>, intensity: real, totalPd: Val, name: string, aromas: seq<ConvertedAroma>)

  /** `toAroma(data, totalValue, index, field)`; the total is passed but not used. */
  function ToAroma(data: AromaRecord, totalValue: Val, index: nat, field: Field): (a: ConvertedAroma)
    ensures a.rel == OrDefault(data.Get(field), 0.0)
    ensures a.index == index && a.descriptorId == data.descriptorId && a.typeId == data.typeId
  {
    ConvertedAroma(
      OrDefault(ToNumber(data.Get(field)), 0.0),
      data.descriptorId, data.descriptor, ToNumber(data.descriptorIndex),
      data.typeId, data.typeName, ToNumber(data.typeIndex),
      index)
  }

  /** `data[0].name || data[0].descriptor || 'unknown'` */
  function IngredientName(first: AromaRecord): string {
    if TruthyStr(first.name) then first.name.value
    else if first.descriptor != "" then first.descriptor
    else "unknown"
  }

  /**
    * `toIngredient(id, data, dataTypeField)`: the column total, and one aroma per
    * row carrying the row's relative share. `data[0]` is read, so the source
    * throws on an empty list; its callers check the length first.
    */
  function ToIngredient(id: Option<int>, data: seq<AromaRecord>, dataTypeField: AromaDataType): (c: ConvertedIngredient)
    requires |data| > 0
    ensures c.totalPd == SumAromaValues(data, dataTypeField)
    ensures TruthyStr(data[0].name) ==> c.name == data[0].name.value
    ensures !TruthyStr(data[0].name) && data[0].descriptor != "" ==> c.name == data[0].descriptor
    ensures !TruthyStr(data[0].name) && data[0].descriptor == "" ==> c.name == "unknown"
    ensures c.ingredientId == id && c.intensity == 1.0
    ensures |c.aromas| == |data|
    ensures forall i :: 0 <= i < |data| ==>
      c.aromas[i].index == i
      && c.aromas[i].rel == OrDefault(data[i].Get(RelativeOf(dataTypeField)), 0.0)
      && c.aromas[i].descriptorId == data[i].descriptorId
  {
    var total := SumAromaValues(data, dataTypeField);
    ConvertedIngredient(
      id, 1.0, total, IngredientName(data[0]),
      seq(|data|, i requires 0 <= i < |data| => ToAroma(data[i], total, i, RelativeOf(dataTypeField))))
  }
}
