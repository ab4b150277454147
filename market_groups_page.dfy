/**
  * `MarketGroups/index.tsx`: the market-groups page. It picks the service
  * from the route, keeps the selected group, and turns a new list of the
  * group's market types into the update request: the whole list for the
  * frontend service, an add-or-remove delta for the back office.
  */
module MarketGroupsPage {
  import opened JsValues
  import opened SeqUtil
  import opened MarketGroupTypes

  /** `envType === 'backoffice' ? backoffice : frontend` */
  function EnvOf(envType: Option<string>): (env: EnvMarketGroups)
    ensures EnvName(env) == if envType == Some("backoffice") then "backoffice-market-groups" else "market-groups"
  {
    if envType == Some("backoffice") then Backoffice else Frontend
  }

  /** The elements of `s` that are not in `b`, in order. */
  function Without<T(==,!new)>(s: seq<T>, b: seq<T>): (r: seq<T>)
    ensures forall x :: x in r <==> x in s && x !in b
    ensures NoDuplicates(s) ==> NoDuplicates(r)
  {
    if s == [] then []
    else
      var rest := Without(s[1..], b);
      if s[0] in b then rest
      else
        assert NoDuplicates(s) ==> s[0] !in s[1..];
        [s[0]] + rest
  }

  /**
    * rambdax `difference(a, b)`: the distinct values of `a` (first
    * occurrences, in order) that are not in `b`, compared structurally.
    */
  function Difference<T(==,!new)>(a: seq<T>, b: seq<T>): (r: seq<T>)
    ensures forall x :: x in r <==> x in a && x !in b
    ensures NoDuplicates(r)
  {
    Without(Dedupe(a), b)
  }

  /** The `PUT` the page sends: the route's action, service and group, and the body's list. */
  datatype TypesUpdate = TypesUpdate(action: string, envMarketGroups: EnvMarketGroups, id: int,
                                     marketTypes: seq<MarketTypeRef>)

  /**
    * `updateMarketTypes(newMarketTypes)`: nothing without a selected group.
    * The frontend service gets `market-types` with the whole new list. The
    * back office gets `remove-market-types` with "current minus new" when the
    * current list is longer, and `assign-market-types` with "new minus
    * current" otherwise, equal lengths included.
    */
  function UpdateMarketTypesRequest(env: EnvMarketGroups, selected: Option<MarketGroup>,
                                    newTypes: seq<MarketTypeRef>): (r: Option<TypesUpdate>)
    ensures r.None? <==> selected.None?
    ensures r.Some? ==> r.value.id == selected.value.id && r.value.envMarketGroups == env
    ensures r.Some? && env == Frontend ==> r.value.action == "market-types" && r.value.marketTypes == newTypes
    ensures r.Some? && env == Backoffice && |selected.value.marketTypes| > |newTypes| ==>
      r.value.action == "remove-market-types" && r.value.marketTypes == Difference(selected.value.marketTypes, newTypes)
    ensures r.Some? && env == Backoffice && |selected.value.marketTypes| <= |newTypes| ==>
      r.value.action == "assign-market-types" && r.value.marketTypes == Difference(newTypes, selected.value.marketTypes)
  {
    if selected.None? then None
    else
      var current := selected.value.marketTypes;
      if env == Backoffice then
        if |current| > |newTypes| then
          Some(TypesUpdate("remove-market-types", env, selected.value.id, Difference(current, newTypes)))
        else
          Some(TypesUpdate("assign-market-types", env, selected.value.id, Difference(newTypes, current)))
      else Some(TypesUpdate("market-types", env, selected.value.id, newTypes))
  }

  /**
    * When the new list only drops entries, removing the delta from the
    * current list leaves exactly the new list's entries.
    */
  lemma RemoveDeltaReachesTarget(selected: MarketGroup, newTypes: seq<MarketTypeRef>)
    requires |selected.marketTypes| > |newTypes|
    requires forall x :: x in newTypes ==> x in selected.marketTypes
    ensures var r := UpdateMarketTypesRequest(Backoffice, Some(selected), newTypes).value;
      r.action == "remove-market-types" &&
      forall x :: (x in selected.marketTypes && x !in r.marketTypes) <==> x in newTypes
  {
  }

  /**
    * When the new list only adds entries, assigning the delta to the current
    * list gives exactly the new list's entries.
    */
  lemma AssignDeltaReachesTarget(selected: MarketGroup, newTypes: seq<MarketTypeRef>)
    requires |selected.marketTypes| <= |newTypes|
    requires forall x :: x in selected.marketTypes ==> x in newTypes
    ensures var r := UpdateMarketTypesRequest(Backoffice, Some(selected), newTypes).value;
      r.action == "assign-market-types" &&
      forall x :: (x in selected.marketTypes || x in r.marketTypes) <==> x in newTypes
  {
  }

  /**
    * Swapping one entry for another keeps the length, so the back office
    * only gets the new entry assigned and the old one stays in the group.
    */
  lemma SwapOnlyAssigns(selected: MarketGroup, a: MarketTypeRef, b: MarketTypeRef)
    requires selected.marketTypes == [a] && a != b
    ensures var r := UpdateMarketTypesRequest(Backoffice, Some(selected), [b]).value;
      r.action == "assign-market-types" && r.marketTypes == [b] && a !in r.marketTypes
  {
    assert Dedupe([b]) == [b];
    assert Without([b], [a]) == [b] + Without([], [a]);
  }

  /** The page's state: the sport's market types, the selected group, and the loading flag. */
  class MarketGroupPage {
    const envMarketGroups: EnvMarketGroups
    var sportMarketTypes: seq<MarketType>
    var selectedMarketGroup: Option<MarketGroup>
    var loading: bool

    constructor (envType: Option<string>)
      ensures envMarketGroups == EnvOf(envType)
      ensures sportMarketTypes == [] && selectedMarketGroup.None? && !loading
    {
      envMarketGroups := EnvOf(envType);
      sportMarketTypes := [];
      selectedMarketGroup := None;
      loading := false;
    }

    /**
      * The market-types effect: with a selected group of a sport (a non-zero
      * `sportId`) that sport's types are requested; a response replaces the
      * list, a failure keeps it. Returns the requested sport.
      */
    method LoadMarketTypes(response: Option<seq<MarketType>>) returns (requestedSport: Option<int>)
      modifies this
      ensures requestedSport == if selectedMarketGroup.Some? && selectedMarketGroup.value.sportId != 0
                                then Some(selectedMarketGroup.value.sportId) else None
      ensures sportMarketTypes == if requestedSport.Some? && response.Some? then response.value else old(sportMarketTypes)
      ensures selectedMarketGroup == old(selectedMarketGroup) && loading == old(loading)
    {
      requestedSport := None;
      if selectedMarketGroup.Some? && selectedMarketGroup.value.sportId != 0 {
        requestedSport := Some(selectedMarketGroup.value.sportId);
        if response.Some? {
          sportMarketTypes := response.value;
        }
      }
    }

    /**
      * `getSelectedMarketGroup(marketGroup)`: no group clears the selection
      * without a request; otherwise the group is fetched by id, the response
      * (if any) becomes the selection, and loading ends false.
      */
    method GetSelectedMarketGroup(marketGroup: Option<MarketGroup>, response: Option<MarketGroup>)
      returns (fetchedId: Option<int>)
      modifies this
      ensures marketGroup.None? ==> fetchedId.None? && selectedMarketGroup.None? && loading == old(loading)
      ensures marketGroup.Some? ==>
        && fetchedId == Some(marketGroup.value.id)
        && selectedMarketGroup == (if response.Some? then response else old(selectedMarketGroup))
        && !loading
      ensures sportMarketTypes == old(sportMarketTypes)
    {
      if marketGroup.None? {
        selectedMarketGroup := None;
        return None;
      }
      loading := true;
      fetchedId := Some(marketGroup.value.id);
      if response.Some? {
        selectedMarketGroup := response;
      }
      loading := false;
    }

    /**
      * `updateMarketTypes(newMarketTypes)`: sends the request for the current
      * selection; the server's group, if it answers, becomes the selection.
      */
    method UpdateMarketTypes(newTypes: seq<MarketTypeRef>, response: Option<MarketGroup>)
      returns (request: Option<TypesUpdate>)
      modifies this
      ensures request == UpdateMarketTypesRequest(envMarketGroups, old(selectedMarketGroup), newTypes)
      ensures selectedMarketGroup == if request.Some? && response.Some? then response else old(selectedMarketGroup)
      ensures sportMarketTypes == old(sportMarketTypes) && loading == old(loading)
    {
      request := UpdateMarketTypesRequest(envMarketGroups, selectedMarketGroup, newTypes);
      if request.Some? && response.Some? {
        selectedMarketGroup := response;
      }
    }
  }
}
