/**
  * `feature/aroma/store/reducer.ts`: the aroma slice's state and its case
  * reducers. Immer lets each reducer assign fields of the draft state; here
  * the state is an object whose methods assign the same fields. Reducers that
  * also rewrite their action's payload return the rewritten payload.
  */
module AromaReducer {
  import opened JsValues
  import opened AromaTypes
  import opened AromaStoreTypes

  /** A copy of every field of `AromaStateType`, to compare states as values. */
  datatype AromaSnapshot = AromaSnapshot(
    aromaVizRows: seq<AromaRecord>,
    error: Option<string>,
    loading: bool,
    dotGraphMainIngredient: Option<DotGraphRow>,
    dotGraphOtherIngredients: seq<Option<DotGraphRow>>,
    mainIngredient: Option<Ingredient>,
    changedRows: seq<AromaRecord>,
    aromaProfileVariants: seq<AromaTableProfile>,
    currentProfileVariant: Option<AromaTableProfile>,
    updateAromaViz: bool,
    dataType: Option<Field>)

  /** `initialState` */
  const InitialState := AromaSnapshot([], None, false, None, [], None, [], [], None, true, None)

  /** `variants.filter((p) => p.name === name).length` is not 0. */
  predicate HasVariantNamed(variants: seq<AromaTableProfile>, name: string) {
    exists i :: 0 <= i < |variants| && variants[i].name == name
  }

  /** The list `setCurrentVariant` leaves: the variant appended only when no variant has its name. */
  function AppendIfAbsentByName(variants: seq<AromaTableProfile>, v: AromaTableProfile): (r: seq<AromaTableProfile>)
    ensures HasVariantNamed(variants, v.name) ==> r == variants
    ensures !HasVariantNamed(variants, v.name) ==> r == variants + [v]
  {
    if HasVariantNamed(variants, v.name) then variants else variants + [v]
  }

  /** No two variants share a name. */
  predicate UniqueNames(variants: seq<AromaTableProfile>) {
    forall i, j :: 0 <= i < j < |variants| ==> variants[i].name != variants[j].name
  }

  /**
    * After the append a variant of that name is present; the variant already
    * there is kept, not replaced; appending again changes nothing; and unique
    * names stay unique.
    */
  lemma AppendIfAbsentByNameFacts(variants: seq<AromaTableProfile>, v: AromaTableProfile)
    ensures var r := AppendIfAbsentByName(variants, v);
      && HasVariantNamed(r, v.name)
      && variants <= r
      && AppendIfAbsentByName(r, v) == r
      && (UniqueNames(variants) ==> UniqueNames(r))
  {
    var r := AppendIfAbsentByName(variants, v);
    if !HasVariantNamed(variants, v.name) {
      assert r[|variants|] == v;
    }
  }

  /**
    * `others[position] = row` on a JavaScript array: a position past the end
    * leaves holes (`None`) up to it; a negative position names no element, so
    * the elements stay as they are.
    */
  function WriteAt(others: seq<Option<DotGraphRow>>, position: int, row: DotGraphRow): (r: seq<Option<DotGraphRow>>)
    ensures position < 0 ==> r == others
    ensures position >= 0 ==> |r| == if position < |others| then |others| else position + 1
    ensures position >= 0 ==> r[position] == Some(row)
    ensures position >= 0 ==> forall i :: 0 <= i < |r| && i != position ==>
      r[i] == if i < |others| then others[i] else None
  {
    if position < 0 then others
    else if position < |others| then others[position := Some(row)]
    else others + seq(position - |others|, _ => None) + [Some(row)]
  }

  class AromaState {
    var aromaVizRows: seq<AromaRecord>
    var error: Option<string>
    var loading: bool
    var dotGraphMainIngredient: Option<DotGraphRow>
    var dotGraphOtherIngredients: seq<Option<DotGraphRow>>
    var mainIngredient: Option<Ingredient>
    var changedRows: seq<AromaRecord>
    var aromaProfileVariants: seq<AromaTableProfile>
    var currentProfileVariant: Option<AromaTableProfile>
    var updateAromaViz: bool
    var dataType: Option<Field>

    function Snapshot(): AromaSnapshot
      reads this
    {
      AromaSnapshot(aromaVizRows, error, loading, dotGraphMainIngredient, dotGraphOtherIngredients,
                    mainIngredient, changedRows, aromaProfileVariants, currentProfileVariant,
                    updateAromaViz, dataType)
    }

    /** The slice starts from `initialState`. */
    constructor ()
      ensures Snapshot() == InitialState
    {
      aromaVizRows, error, loading := [], None, false;
      dotGraphMainIngredient, dotGraphOtherIngredients, mainIngredient := None, [], None;
      changedRows, aromaProfileVariants, currentProfileVariant := [], [], None;
      updateAromaViz, dataType := true, None;
    }

    /** `setAromaVizDataType` */
    method SetAromaVizDataType(payload: Option<Field>)
      modifies this
      ensures Snapshot() == old(Snapshot()).(dataType := payload)
    {
      dataType := payload;
    }

    /** `setUpdateAromaViz` */
    method SetUpdateAromaViz(payload: bool)
      modifies this
      ensures Snapshot() == old(Snapshot()).(updateAromaViz := payload)
    {
      updateAromaViz := payload;
    }

    /**
      * `addAromaProfileVariant`: loading iff the id, version and profile are
      * all given; the payload's missing `dataType` is filled from the state.
      */
    method AddAromaProfileVariant(payload: PostPayload) returns (rewritten: PostPayload)
      modifies this
      ensures Snapshot() == old(Snapshot()).(loading := TruthyNum(payload.productPreparationId)
                                                         && payload.version != "" && payload.profile.Some?)
      ensures rewritten == payload.(dataType := if payload.dataType.Some? then payload.dataType else old(dataType))
    {
      loading := TruthyNum(payload.productPreparationId) && payload.version != "" && payload.profile.Some?;
      rewritten := payload.(dataType := if payload.dataType.Some? then payload.dataType else dataType);
    }

    /** `loadAromaProfileVariants`: the variant list and the current variant are cleared. */
    method LoadAromaProfileVariants(payload: LoadPayload)
      modifies this
      ensures Snapshot() == old(Snapshot()).(loading := TruthyNum(payload.productPreparationId) && payload.version != "",
                                             aromaProfileVariants := [], currentProfileVariant := None)
    {
      loading := TruthyNum(payload.productPreparationId) && payload.version != "";
      aromaProfileVariants := [];
      currentProfileVariant := None;
    }

    /** `setCurrentVariant`: append-if-absent by name, then make it current. */
    method SetCurrentVariant(payload: AromaTableProfile)
      modifies this
      ensures Snapshot() == old(Snapshot()).(aromaProfileVariants := AppendIfAbsentByName(old(aromaProfileVariants), payload),
                                             currentProfileVariant := Some(payload))
    {
      var sameName := HasVariantNamed(aromaProfileVariants, payload.name);
      if !sameName {
        aromaProfileVariants := aromaProfileVariants + [payload];
      }
      currentProfileVariant := Some(payload);
    }

    /** `setAromaVariants`: the payload, or `[]` when it is missing. */
    method SetAromaVariants(payload: Option<seq<AromaTableProfile>>)
      modifies this
      ensures Snapshot() == old(Snapshot()).(aromaProfileVariants := if payload.Some? then payload.value else [])
    {
      aromaProfileVariants := if payload.Some? then payload.value else [];
    }

    /** `setChangedRows` */
    method SetChangedRows(payload: seq<AromaRecord>)
      modifies this
      ensures Snapshot() == old(Snapshot()).(changedRows := payload)
    {
      changedRows := payload;
    }

    /**
      * `loadAromaVizRows`: the rows are emptied iff no id is given; the
      * payload keeps its `dataType` only when the id is given as well.
      */
    method LoadAromaVizRows(payload: LoadPayload) returns (rewritten: LoadPayload)
      modifies this
      ensures TruthyNum(payload.productPreparationId) ==> Snapshot() == old(Snapshot())
      ensures !TruthyNum(payload.productPreparationId) ==> Snapshot() == old(Snapshot()).(aromaVizRows := [])
      ensures rewritten == payload.(dataType := if TruthyNum(payload.productPreparationId) then payload.dataType else None)
    {
      rewritten := payload.(dataType := if TruthyNum(payload.productPreparationId) && payload.dataType.Some?
                                        then payload.dataType else None);
      if !TruthyNum(payload.productPreparationId) {
        aromaVizRows := [];
      }
    }

    /** `loadDotGraphRow`: with `resetDotGraph` the dot graph is cleared. */
    method LoadDotGraphRow(payload: LoadDotGraphPayload)
      modifies this
      ensures payload.resetDotGraph ==>
        Snapshot() == old(Snapshot()).(dotGraphMainIngredient := None, dotGraphOtherIngredients := [])
      ensures !payload.resetDotGraph ==> Snapshot() == old(Snapshot())
    {
      if payload.resetDotGraph {
        dotGraphMainIngredient := None;
        dotGraphOtherIngredients := [];
      }
    }

    /** `reset`: back to `initialState`. */
    method Reset()
      modifies this
      ensures Snapshot() == InitialState
    {
      aromaVizRows, error, loading := [], None, false;
      dotGraphMainIngredient, dotGraphOtherIngredients, mainIngredient := None, [], None;
      changedRows, aromaProfileVariants, currentProfileVariant := [], [], None;
      updateAromaViz, dataType := true, None;
    }

    /**
      * `setDotGraphRows`: a given main ingredient replaces the current one, a
      * given list replaces the others, and then the added row is written at
      * its `rowPosition`.
      */
    method SetDotGraphRows(payload: SetDotGraphRowsPayload)
      modifies this
      ensures var others := if payload.dotGraphOtherIngredients.Some? then payload.dotGraphOtherIngredients.value
                            else old(dotGraphOtherIngredients);
        Snapshot() == old(Snapshot()).(
          dotGraphMainIngredient := if payload.dotGraphMainIngredient.Some? then payload.dotGraphMainIngredient
                                    else old(dotGraphMainIngredient),
          dotGraphOtherIngredients := if payload.addDotGraphOtherIngredient.Some?
                                      then WriteAt(others, payload.addDotGraphOtherIngredient.value.rowPosition,
                                                   payload.addDotGraphOtherIngredient.value)
                                      else others)
    {
      if payload.dotGraphMainIngredient.Some? {
        dotGraphMainIngredient := payload.dotGraphMainIngredient;
      }
      if payload.dotGraphOtherIngredients.Some? {
        dotGraphOtherIngredients := payload.dotGraphOtherIngredients.value;
      }
      if payload.addDotGraphOtherIngredient.Some? {
        var row := payload.addDotGraphOtherIngredient.value;
        dotGraphOtherIngredients := WriteAt(dotGraphOtherIngredients, row.rowPosition, row);
      }
    }

    /** `setError` */
    method SetError(payload: Option<string>)
      modifies this
      ensures Snapshot() == old(Snapshot()).(error := payload)
    {
      error := payload;
    }

    /** `setIngredientAromaVizRows`: rows always replaced, the type only when given. */
    method SetIngredientAromaVizRows(payload: SetRowsPayload)
      modifies this
      ensures Snapshot() == old(Snapshot()).(aromaVizRows := payload.aromaVizRows,
                                             dataType := if payload.dataType.Some? then payload.dataType else old(dataType))
    {
      if payload.dataType.Some? {
        dataType := payload.dataType;
      }
      aromaVizRows := payload.aromaVizRows;
    }

    /** `setLoading` */
    method SetLoading(payload: bool)
      modifies this
      ensures Snapshot() == old(Snapshot()).(loading := payload)
    {
      loading := payload;
    }

    /** `setMainIngredient`: the payload, or `null` when it is missing. */
    method SetMainIngredient(payload: Option<Ingredient>)
      modifies this
      ensures Snapshot() == old(Snapshot()).(mainIngredient := payload)
    {
      mainIngredient := payload;
    }
  }
}
