/**
  * `admin/aroma/Variant/ProfileSelector.tsx`: the variant select. The chosen
  * variant becomes current, its rows are loaded and the `variant` query
  * parameter is rewritten; on page load the variant named in the URL (or
  * "Default") is preselected.
  */
module ProfileSelector {
  import opened JsValues
  import opened SeqUtil
  import opened AromaStoreTypes

  /** `PROFILE_VARIANT_QUERY_PARAM` and `PROFILE_VARIANT_DEFAULT` */
  const VariantParam := "variant"
  const DefaultVariant := "Default"

  /** One `key=value` pair of the URL's search string, in order. */
  datatype QueryParam = QueryParam(key: string, value: string)

  /** `URLSearchParams.get(key)`: the first pair's value, or `null`. */
  function Get(params: seq<QueryParam>, key: string): (r: Option<string>)
    ensures r.None? <==> forall i :: 0 <= i < |params| ==> params[i].key != key
    ensures r.Some? ==> exists i :: 0 <= i < |params| && params[i] == QueryParam(key, r.value)
  {
    if params == [] then None
    else if params[0].key == key then Some(params[0].value)
    else
      var r := Get(params[1..], key);
      assert r.Some? ==> exists i :: 0 <= i < |params[1..]| && params[1..][i] == QueryParam(key, r.value);
      r
  }

  /** The pairs whose key is not `key`, in order. */
  function Others(params: seq<QueryParam>, key: string): (r: seq<QueryParam>)
    ensures forall i :: 0 <= i < |r| ==> r[i].key != key
  {
    if params == [] then []
    else if params[0].key == key then Others(params[1..], key)
    else [params[0]] + Others(params[1..], key)
  }

  /** The number of pairs with key `key`. */
  function CountKey(params: seq<QueryParam>, key: string): nat {
    if params == [] then 0 else (if params[0].key == key then 1 else 0) + CountKey(params[1..], key)
  }

  /**
    * `URLSearchParams.set(key, value)`: the first pair with that key takes
    * the value and later ones are deleted; without one the pair is appended.
    */
  function SetParam(params: seq<QueryParam>, key: string, value: string): (r: seq<QueryParam>)
  {
    if params == [] then [QueryParam(key, value)]
    else if params[0].key == key then [QueryParam(key, value)] + Others(params[1..], key)
    else [params[0]] + SetParam(params[1..], key, value)
  }

  lemma {:induction false} OthersIdempotent(params: seq<QueryParam>, key: string)
    ensures Others(Others(params, key), key) == Others(params, key)
  {
    if params != [] {
      OthersIdempotent(params[1..], key);
      var o := Others(params, key);
      if params[0].key != key {
        assert o[1..] == Others(params[1..], key);
      }
    }
  }

  lemma {:induction false} OthersCount(params: seq<QueryParam>, key: string)
    ensures CountKey(Others(params, key), key) == 0
  {
    if params != [] {
      OthersCount(params[1..], key);
    }
  }

  /**
    * After `set` exactly one pair has the key, `get` reads the value back,
    * and the pairs with other keys are the same, in the same order.
    */
  lemma {:induction false} SetParamFacts(params: seq<QueryParam>, key: string, value: string)
    ensures var r := SetParam(params, key, value);
      && CountKey(r, key) == 1
      && Get(r, key) == Some(value)
      && Others(r, key) == Others(params, key)
  {
    if params == [] {
    } else if params[0].key == key {
      OthersCount(params[1..], key);
      OthersIdempotent(params[1..], key);
      var o := Others(params[1..], key);
      assert Others([QueryParam(key, value)] + o, key) == Others(o, key);
    } else {
      SetParamFacts(params[1..], key, value);
      var r := SetParam(params, key, value);
      assert r[1..] == SetParam(params[1..], key, value);
    }
  }

  /** `queryParamVariant`: the `variant` parameter, or "Default" when it is absent or empty. */
  function QueryParamVariant(search: seq<QueryParam>): (r: string)
    ensures r != ""
    ensures TruthyStr(Get(search, VariantParam)) ==> r == Get(search, VariantParam).value
    ensures !TruthyStr(Get(search, VariantParam)) ==> r == DefaultVariant
  {
    var v := Get(search, VariantParam);
    if TruthyStr(v) then v.value else DefaultVariant
  }

  /** `availableProfileVariants.filter((p) => p?.name === value)[0]` */
  function FindVariant(variants: seq<AromaTableProfile>, value: string): (r: Option<AromaTableProfile>)
    ensures r.None? <==> forall i :: 0 <= i < |variants| ==> variants[i].name != value
    ensures r.Some? ==> r.value.name == value
    ensures r.Some? ==> exists k :: (0 <= k < |variants| && variants[k] == r.value &&
      forall j :: 0 <= j < k ==> variants[j].name != value)
  {
    if variants == [] then None
    else if variants[0].name == value then Some(variants[0])
    else
      var r := FindVariant(variants[1..], value);
      if r.Some? then
        assert exists k :: (0 <= k < |variants| && variants[k] == r.value &&
          forall j :: 0 <= j < k ==> variants[j].name != value)
        by {
          var k :| 0 <= k < |variants| - 1 && variants[1..][k] == r.value &&
            forall j :: 0 <= j < k ==> variants[1..][j].name != value;
          assert variants[k + 1] == r.value;
          assert forall j :: 1 <= j < k + 1 ==> variants[j] == variants[1..][j - 1];
        }
        r
      else r
  }

  /** What `onProfileChange` does, in order: two dispatches and a navigation to a new search string. */
  datatype ProfileEffect =
    | SetCurrentVariant(profile: AromaTableProfile)
    | LoadAromaVizRows(payload: LoadPayload)
    | Navigate(search: seq<QueryParam>)

  /**
    * `onProfileChange`: nothing unless the value names a variant with a
    * non-empty name and the version and preparation id are set; then the
    * variant becomes current, its rows are loaded by name, and the URL's
    * `variant` parameter is set to its name, the other parameters kept.
    */
  function OnProfileChange(variants: seq<AromaTableProfile>, value: string, version: Option<string>,
                           productPreparationId: Option<int>, search: seq<QueryParam>): (effects: seq<ProfileEffect>)
    ensures effects != [] <==>
      value != "" && FindVariant(variants, value).Some? && TruthyStr(version) && TruthyNum(productPreparationId)
    ensures effects != [] ==>
      var v := FindVariant(variants, value).value;
      && |effects| == 3
      && effects[0] == SetCurrentVariant(v)
      && effects[1] == LoadAromaVizRows(LoadPayload(productPreparationId, version.value, None, Some(value)))
      && effects[2] == Navigate(SetParam(search, VariantParam, value))
  {
    var v := FindVariant(variants, value);
    if v.Some? && v.value.name != "" && TruthyStr(version) && TruthyNum(productPreparationId) then
      [SetCurrentVariant(v.value),
       LoadAromaVizRows(LoadPayload(productPreparationId, version.value, None, Some(v.value.name))),
       Navigate(SetParam(search, VariantParam, v.value.name))]
    else []
  }

  /** After a change the new URL's `queryParamVariant` is the chosen variant's name. */
  lemma ProfileChangeRoundTrip(variants: seq<AromaTableProfile>, value: string, version: Option<string>,
                               productPreparationId: Option<int>, search: seq<QueryParam>)
    requires OnProfileChange(variants, value, version, productPreparationId, search) != []
    ensures var effects := OnProfileChange(variants, value, version, productPreparationId, search);
      QueryParamVariant(effects[2].search) == effects[0].profile.name
  {
    SetParamFacts(search, VariantParam, value);
  }

  /**
    * The preselect effect: while no variant with a name is selected, the
    * URL's variant (or "Default") is chosen as if picked from the list.
    */
  function Preselect(selectedProfile: Option<AromaTableProfile>, variants: seq<AromaTableProfile>,
                     version: Option<string>, productPreparationId: Option<int>, search: seq<QueryParam>)
    : (effects: seq<ProfileEffect>)
    ensures selectedProfile.Some? && selectedProfile.value.name != "" ==> effects == []
    ensures selectedProfile.None? || selectedProfile.value.name == "" ==>
      effects == OnProfileChange(variants, QueryParamVariant(search), version, productPreparationId, search)
  {
    if selectedProfile.None? || selectedProfile.value.name == "" then
      OnProfileChange(variants, QueryParamVariant(search), version, productPreparationId, search)
    else []
  }

  /**
    * A preselection that does something makes a named variant current, after
    * which the preselect effect does nothing more.
    */
  lemma PreselectSettles(selectedProfile: Option<AromaTableProfile>, variants: seq<AromaTableProfile>,
                         version: Option<string>, productPreparationId: Option<int>, search: seq<QueryParam>)
    requires Preselect(selectedProfile, variants, version, productPreparationId, search) != []
    ensures var effects := Preselect(selectedProfile, variants, version, productPreparationId, search);
      var search' := effects[2].search;
      && effects[0].profile.name == QueryParamVariant(search)
      && Preselect(Some(effects[0].profile), variants, version, productPreparationId, search') == []
  {
  }

  /** The options: the variants with a non-empty name, in order. */
  function OfferedVariants(variants: seq<AromaTableProfile>): (r: seq<AromaTableProfile>)
    ensures forall i :: 0 <= i < |r| ==> r[i].name != ""
    ensures forall i :: 0 <= i < |variants| && variants[i].name != "" ==> variants[i] in r
    ensures IsSubsequence(r, variants)
  {
    FilterIsSubsequence(variants, (p: AromaTableProfile) => p.name != "");
    Filter(variants, (p: AromaTableProfile) => p.name != "")
  }
}
