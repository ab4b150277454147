/**
  * `MarketGroups/MarketTypesPanel.tsx`: the panel that assigns market types
  * to a group. It lists the sport's types that match the search, the tab and
  * the group's required parameters, keeps the checked types, and submits
  * their `{id, parameters}`.
  */
module MarketTypesPanel {
  import opened JsValues
  import opened SeqUtil
  import opened MarketGroupTypes

  /** `GroupNames`: the "All" and "In Group" tabs. */
  datatype GroupTab = All | InGroup

  /** `!search || marketType.name.toLowerCase().includes(search)`: the search itself is not lower-cased. */
  predicate WithinSearch(mt: MarketType, search: Option<string>) {
    !TruthyStr(search) || Contains(Lower(mt.name), search.value)
  }

  /** The "All" tab, or the type is one of the group's. */
  predicate WithinTab(mt: MarketType, tab: GroupTab, group: MarketGroup) {
    tab == All || exists i :: 0 <= i < |group.marketTypes| && group.marketTypes[i].id == mt.id
  }

  /** The type has every parameter the group requires. */
  predicate WithAllParams(mt: MarketType, group: MarketGroup) {
    forall i :: 0 <= i < |group.requiredParameters| ==> group.requiredParameters[i] in mt.parameters
  }

  predicate Listed(mt: MarketType, search: Option<string>, tab: GroupTab, group: MarketGroup) {
    WithinSearch(mt, search) && WithinTab(mt, tab, group) && WithAllParams(mt, group)
  }

  /** The listed types: the reduce over the sport's types, one push per match. */
  function ListedTypes(sport: seq<MarketType>, search: Option<string>, tab: GroupTab, group: MarketGroup)
    : (r: seq<MarketType>)
    ensures forall i :: 0 <= i < |r| ==> r[i] in sport && Listed(r[i], search, tab, group)
    ensures forall i :: 0 <= i < |sport| && Listed(sport[i], search, tab, group) ==> sport[i] in r
  {
    if sport == [] then []
    else
      var last := sport[|sport| - 1];
      ListedTypes(sport[..|sport| - 1], search, tab, group) + (if Listed(last, search, tab, group) then [last] else [])
  }

  /** The listed types keep the sport's order. */
  lemma {:induction false} ListedTypesKeepOrder(sport: seq<MarketType>, search: Option<string>, tab: GroupTab,
                                                group: MarketGroup)
    ensures IsSubsequence(ListedTypes(sport, search, tab, group), sport)
  {
    if sport != [] {
      var init, last := sport[..|sport| - 1], sport[|sport| - 1];
      ListedTypesKeepOrder(init, search, tab, group);
      var l := ListedTypes(init, search, tab, group);
      SubsequenceExtend(l, init, last);
      assert init + [last] == sport;
      if Listed(last, search, tab, group) {
        assert ListedTypes(sport, search, tab, group) == l + [last];
      } else {
        assert ListedTypes(sport, search, tab, group) == l;
      }
    }
  }

  /** A search holding a capital letter can never match a lower-cased name, so nothing is listed. */
  lemma UppercaseSearchListsNothing(sport: seq<MarketType>, search: string, tab: GroupTab, group: MarketGroup)
    requires exists k :: 0 <= k < |search| && IsUpperAscii(search[k])
    ensures ListedTypes(sport, Some(search), tab, group) == []
  {
    var r := ListedTypes(sport, Some(search), tab, group);
    if r != [] {
      LowerContainsNoUpper(r[0].name, search);
    }
  }

  /** With no search, the "All" tab and no required parameter, every type is listed, in order. */
  lemma {:induction false} NoFilterListsAll(sport: seq<MarketType>, search: Option<string>, group: MarketGroup)
    requires !TruthyStr(search) && group.requiredParameters == []
    ensures ListedTypes(sport, search, All, group) == sport
  {
    if sport != [] {
      NoFilterListsAll(sport[..|sport| - 1], search, group);
      assert sport[..|sport| - 1] + [sport[|sport| - 1]] == sport;
    }
  }

  /** `onCheckMarketTypes`: the sport's types whose id is checked, in the sport's order. */
  function CheckedTypes(sport: seq<MarketType>, checkedValues: seq<int>): (r: seq<MarketType>)
    ensures forall i :: 0 <= i < |r| ==> r[i] in sport && r[i].id in checkedValues
    ensures forall i :: 0 <= i < |sport| && sport[i].id in checkedValues ==> sport[i] in r
    ensures IsSubsequence(r, sport)
  {
    FilterIsSubsequence(sport, (mt: MarketType) => mt.id in checkedValues);
    Filter(sport, (mt: MarketType) => mt.id in checkedValues)
  }

  class MarketTypesPanelView {
    const marketGroup: MarketGroup
    var group: GroupTab
    var search: Option<string>
    /** The checked types, as the `{id, parameters}` the submit sends. */
    var checkedMarketTypes: seq<MarketTypeRef>

    /** The tab starts on "All", no search, and the group's own types checked. */
    constructor (marketGroup: MarketGroup)
      ensures this.marketGroup == marketGroup
      ensures group == All && search.None? && checkedMarketTypes == marketGroup.marketTypes
    {
      this.marketGroup := marketGroup;
      group := All;
      search := None;
      checkedMarketTypes := marketGroup.marketTypes;
    }

    /** `groupChangeHandler` */
    method GroupChange(tab: GroupTab)
      modifies this
      ensures group == tab && search == old(search) && checkedMarketTypes == old(checkedMarketTypes)
    {
      group := tab;
    }

    /** The search input's `onChange`. */
    method SearchChange(value: string)
      modifies this
      ensures search == Some(value) && group == old(group) && checkedMarketTypes == old(checkedMarketTypes)
    {
      search := Some(value);
    }

    /** `marketTypes`: the reduce that pushes each listed type into the accumulator. */
    method ListMarketTypes(sport: seq<MarketType>) returns (types: seq<MarketType>)
      ensures types == ListedTypes(sport, search, group, marketGroup)
    {
      types := [];
      var i := 0;
      while i < |sport|
        invariant 0 <= i <= |sport|
        invariant types == ListedTypes(sport[..i], search, group, marketGroup)
      {
        assert sport[..i + 1][..i] == sport[..i];
        var mt := sport[i];
        var withinSearch := !TruthyStr(search) || Contains(Lower(mt.name), search.value);
        var withinTab := group == All || exists k :: 0 <= k < |marketGroup.marketTypes| && marketGroup.marketTypes[k].id == mt.id;
        var withAllParams := forall k :: 0 <= k < |marketGroup.requiredParameters| ==> marketGroup.requiredParameters[k] in mt.parameters;
        if withinSearch && withinTab && withAllParams {
          types := types + [mt];
        }
        i := i + 1;
      }
      assert sport[..|sport|] == sport;
    }

    /** `onCheckMarketTypes(checkedValues)` */
    method OnCheckMarketTypes(sport: seq<MarketType>, checkedValues: seq<int>)
      modifies this
      ensures checkedMarketTypes == Refs(CheckedTypes(sport, checkedValues))
      ensures group == old(group) && search == old(search)
    {
      checkedMarketTypes := Refs(CheckedTypes(sport, checkedValues));
    }

    /** "Add Market Types": the checked list's `{id, parameters}`, in order. */
    method Submit() returns (marketTypes: seq<MarketTypeRef>)
      ensures |marketTypes| == |checkedMarketTypes|
      ensures forall i :: 0 <= i < |marketTypes| ==>
        marketTypes[i].id == checkedMarketTypes[i].id && marketTypes[i].parameters == checkedMarketTypes[i].parameters
    {
      var checked := checkedMarketTypes;
      marketTypes := seq(|checked|, i requires 0 <= i < |checked| => MarketTypeRef(checked[i].id, checked[i].parameters));
    }
  }
}
