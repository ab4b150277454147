/**
  * `admin/aroma/AromaViz.tsx`: the page's decisions. Saving edited records
  * either opens the new-variant dialog or updates the current variant; the
  * version in use is the URL's or the latest core version; the main
  * ingredient comes from the query parameter; rows are loaded and the wheel
  * redrawn only when everything they need is known.
  */
module AromaViz {
  import opened JsValues
  import opened AromaTypes
  import opened AromaStoreTypes
  import opened AromaConversion

  // ---------------------------------------------------------------------
  // handleUpdateAromaProfile
  // ---------------------------------------------------------------------

  datatype SaveDecision = OpenCreateVariant | DispatchSave(payload: PostPayload) | NoAction

  /** The variant has no name, or its name is "default" in any letter case. */
  predicate NeedsNewVariant(current: Option<AromaTableProfile>) {
    current.None? || current.value.name == "" || Lower(current.value.name) == "default"
  }

  /**
    * `handleUpdateAromaProfile(records)`: without a named, non-default
    * variant the create dialog opens; otherwise the records update the
    * current variant, if the preparation id, the URL version and records
    * are all there.
    */
  function SaveAction(current: Option<AromaTableProfile>, productPreparationId: Option<int>, version: string,
                      records: seq<AromaRecord>): (d: SaveDecision)
    ensures d.OpenCreateVariant? <==> NeedsNewVariant(current)
    ensures d.DispatchSave? <==>
      !NeedsNewVariant(current) && TruthyNum(productPreparationId) && version != "" && records != []
    ensures d.DispatchSave? ==>
      && d.payload.update
      && d.payload.version == version
      && d.payload.productPreparationId == productPreparationId
      && d.payload.profile == Some(current.value.(records := Some(records)))
  {
    if NeedsNewVariant(current) then OpenCreateVariant
    else if TruthyNum(productPreparationId) && version != "" && records != [] then
      DispatchSave(PostPayload(productPreparationId, version, None, Some(current.value.(records := Some(records))), true))
    else NoAction
  }

  /** "Default", "DEFAULT" and "default" all send the user to the create dialog. */
  lemma DefaultVariantIsNeverUpdated(v: AromaTableProfile, productPreparationId: Option<int>, version: string,
                                     records: seq<AromaRecord>)
    requires v.name in {"Default", "DEFAULT", "default"}
    ensures SaveAction(Some(v), productPreparationId, version, records) == OpenCreateVariant
  {
    if v.name == "Default" {
      CapitalisedDefault();
    } else if v.name == "DEFAULT" {
      UpperCaseDefault();
    } else {
      LowerCaseDefault();
    }
  }

  lemma CapitalisedDefault()
    ensures Lower("Default") == "default"
  {
  }

  lemma UpperCaseDefault()
    ensures Lower("DEFAULT") == "default"
  {
  }

  lemma LowerCaseDefault()
    ensures Lower("default") == "default"
  {
  }

  // ---------------------------------------------------------------------
  // coreVersion / versionToApply
  // ---------------------------------------------------------------------

  /** Every version starts with a digit, so `parseInt` reads a number from each. */
  predicate NumericVersions(versions: seq<string>) {
    forall i :: 0 <= i < |versions| ==> versions[i] != [] && IsDigit(versions[i][0])
  }

  /** `parseInt(v, 10)` of each version. */
  function ParsedVersions(versions: seq<string>): (r: seq<nat>)
    requires NumericVersions(versions)
    ensures |r| == |versions|
    ensures forall i :: 0 <= i < |versions| ==> r[i] == ParseInt(versions[i])
  {
    seq(|versions|, i requires 0 <= i < |versions| => ParseInt(versions[i]))
  }

  /** The index of the first of the largest values. */
  function LatestIndex(values: seq<nat>): (k: nat)
    requires values != []
    ensures k < |values|
    ensures forall j :: 0 <= j < |values| ==> values[j] <= values[k]
    ensures forall j :: 0 <= j < k ==> values[j] < values[k]
  {
    if |values| == 1 then 0
    else
      var init := values[..|values| - 1];
      assert forall j :: 0 <= j < |init| ==> init[j] == values[j];
      var k := LatestIndex(init);
      if values[|values| - 1] > values[k] then |values| - 1 else k
  }

  /**
    * `coreVersion`: the head of the versions sorted by descending `parseInt`
    * (a stable sort): the first of the versions with the largest number, or
    * undefined for no versions.
    */
  function CoreVersion(versions: seq<string>): (v: Option<string>)
    requires NumericVersions(versions)
    ensures v.None? <==> versions == []
    ensures v.Some? ==> exists k :: 0 <= k < |versions| && versions[k] == v.value
                                    && (forall j :: 0 <= j < k ==> ParseInt(versions[j]) < ParseInt(v.value))
    ensures v.Some? ==> forall j :: 0 <= j < |versions| ==> ParseInt(versions[j]) <= ParseInt(v.value)
  {
    if versions == [] then None else Some(versions[LatestIndex(ParsedVersions(versions))])
  }

  /** `version || coreVersion`: the URL's version unless it is missing or empty. */
  function VersionToApply(urlVersion: Option<string>, coreVersion: Option<string>): (v: Option<string>)
    ensures TruthyStr(urlVersion) ==> v == urlVersion
    ensures !TruthyStr(urlVersion) ==> v == coreVersion
  {
    if TruthyStr(urlVersion) then urlVersion else coreVersion
  }

  // ---------------------------------------------------------------------
  // mainIngredientData and the effects
  // ---------------------------------------------------------------------

  /**
    * `coreIngredients.filter((i) => Number(i.productPreparationId) === Number(queryParamId))[0] || {}`,
    * where the query parameter is already `Number(...)`: `None` is `{}`.
    */
  function MainIngredientData(coreIngredients: seq<Ingredient>, queryParamId: Val): (r: Option<Ingredient>)
    ensures r.None? <==> forall i :: 0 <= i < |coreIngredients| ==> !IdMatches(coreIngredients[i], queryParamId)
    ensures r.Some? ==> IdMatches(r.value, queryParamId)
    ensures r.Some? ==> exists k :: (0 <= k < |coreIngredients| && coreIngredients[k] == r.value &&
      forall j :: 0 <= j < k ==> !IdMatches(coreIngredients[j], queryParamId))
  {
    var k := FirstMatchIndex(coreIngredients, queryParamId);
    if k < 0 then None else Some(coreIngredients[k])
  }

  /** `Number(i.productPreparationId) === queryParamId` */
  predicate IdMatches(ingredient: Ingredient, queryParamId: Val) {
    StrictEquals(Num(ingredient.productPreparationId as real), queryParamId)
  }

  /** The position of the first ingredient whose id matches, or -1. */
  function FirstMatchIndex(coreIngredients: seq<Ingredient>, queryParamId: Val): (k: int)
    ensures -1 <= k < |coreIngredients|
    ensures k >= 0 ==> IdMatches(coreIngredients[k], queryParamId)
    ensures forall j :: 0 <= j < |coreIngredients| && (k < 0 || j < k) ==> !IdMatches(coreIngredients[j], queryParamId)
  {
    if coreIngredients == [] then -1
    else if IdMatches(coreIngredients[0], queryParamId) then 0
    else
      var rest := FirstMatchIndex(coreIngredients[1..], queryParamId);
      assert forall j :: 1 <= j < |coreIngredients| ==> coreIngredients[j] == coreIngredients[1..][j - 1];
      if rest < 0 then -1 else rest + 1
  }

  /**
    * The auto-load effect: `loadAromaVizRows` with the preparation id,
    * version and data type, only when all three are set.
    */
  function AutoLoadRows(productPreparationId: Option<int>, versionToApply: Option<string>, dataType: Option<Field>)
    : (a: Option<LoadPayload>)
    ensures a.Some? <==> TruthyNum(productPreparationId) && TruthyStr(versionToApply) && dataType.Some?
    ensures a.Some? ==> a.value == LoadPayload(productPreparationId, versionToApply.value, dataType, None)
  {
    if TruthyNum(productPreparationId) && TruthyStr(versionToApply) && dataType.Some? then
      Some(LoadPayload(productPreparationId, versionToApply.value, dataType, None))
    else None
  }

  /** The effect's cleanup: `loadAromaVizRows` without an id, which empties the rows. */
  function AutoLoadCleanup(versionToApply: Option<string>): (a: LoadPayload)
    ensures a.productPreparationId.None? && a.dataType.None?
  {
    LoadPayload(None, if versionToApply.Some? then versionToApply.value else "", None, None)
  }

  /** The wheel effect: the ingredient is redrawn from the rows only when there are rows, an id and a type. */
  function WheelIngredient(rows: seq<AromaRecord>, productPreparationId: Option<int>, dataType: Option<AromaDataType>)
    : (c: Option<ConvertedIngredient>)
    ensures c.Some? <==> rows != [] && TruthyNum(productPreparationId) && dataType.Some?
    ensures c.Some? ==> c.value.totalPd == SumAromaValues(rows, dataType.value) && |c.value.aromas| == |rows|
  {
    if rows != [] && TruthyNum(productPreparationId) && dataType.Some? then
      Some(ToIngredient(productPreparationId, rows, dataType.value))
    else None
  }

  /** The page state `handleUpdateAromaProfile` changes: whether the create dialog is open. */
  class AromaVizPage {
    var openCreateVariant: bool

    constructor ()
      ensures !openCreateVariant
    {
      openCreateVariant := false;
    }

    /** `handleUpdateAromaProfile(records)`: opens the dialog or returns the dispatched update. */
    method HandleUpdateAromaProfile(current: Option<AromaTableProfile>, productPreparationId: Option<int>,
                                    version: string, records: seq<AromaRecord>)
      returns (dispatched: Option<PostPayload>)
      modifies this
      ensures var d := SaveAction(current, productPreparationId, version, records);
        && openCreateVariant == (d.OpenCreateVariant? || old(openCreateVariant))
        && (dispatched.Some? <==> d.DispatchSave?)
        && (dispatched.Some? ==> dispatched.value == d.payload)
    {
      var d := SaveAction(current, productPreparationId, version, records);
      dispatched := None;
      if d.OpenCreateVariant? {
        openCreateVariant := true;
        return;
      }
      if d.DispatchSave? {
        dispatched := Some(d.payload);
      }
    }
  }
}
