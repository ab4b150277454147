/**
  * `admin/aroma/Variant/DataTypeSelector.tsx`: the data-type select. When the
  * slice has no type yet it picks one from the available types; the shown
  * value follows the slice's type; choosing an option stores that type.
  */
module DataTypeSelector {
  import opened JsValues
  import opened SeqUtil
  import opened AromaTypes
  import opened AromaUtils

  /**
    * The type the effect dispatches: nothing when a type is already set or
    * nothing is available; the only type when there is one; `fd` otherwise.
    */
  function InitialDataType(available: seq<Field>, dataType: Option<Field>): (r: Option<Field>)
    ensures r.None? <==> dataType.Some? || available == []
    ensures r.Some? && |available| == 1 ==> r.value == available[0]
    ensures r.Some? && |available| >= 2 ==> r.value == Fd
  {
    if dataType.None? && available != [] then
      Some(if |available| == 1 then available[0] else Fd)
    else None
  }

  /**
    * On the list `getAvailableDataTypes` computes, the initial choice is
    * always one of the offered types.
    */
  lemma InitialDataTypeIsAvailable<T>(records: seq<T>, defined: (T, Field) -> bool)
    ensures var available := AvailableDataTypes(records, defined);
      var r := InitialDataType(available, None);
      r.Some? ==> r.value in available
  {
    var available := AvailableDataTypes(records, defined);
    AvailableDataTypesBounds(records, defined);
    if |available| == 2 {
      // two distinct entries drawn from {oav, fd}: one of them is fd
      assert available[0] != available[1];
      assert available[0] == Fd || available[1] == Fd;
    }
  }

  /** The component's own state: the select's shown value. */
  class DataTypeSelectorView {
    var selected: string

    /** `useState('')` */
    constructor ()
      ensures selected == ""
    {
      selected := "";
    }

    /**
      * The effect: dispatches `setAromaVizDataType` with the initial choice
      * (returned, `None` when nothing is dispatched), then shows the slice's
      * type when it has one and keeps the shown value otherwise.
      */
    method OnPropsChange(available: seq<Field>, dataType: Option<Field>) returns (dispatched: Option<Field>)
      modifies this
      ensures dispatched == InitialDataType(available, dataType)
      ensures selected == if dataType.Some? then FieldName(dataType.value) else old(selected)
    {
      dispatched := None;
      if dataType.None? && |available| > 0 {
        dispatched := Some(if |available| == 1 then available[0] else Fd);
      }
      if dataType.Some? {
        selected := FieldName(dataType.value);
      }
    }

    /** `onDataTypeChange`: the chosen option is dispatched as it is. */
    method OnDataTypeChange(value: Field) returns (dispatched: Field)
      ensures dispatched == value
    {
      dispatched := value;
    }
  }
}
