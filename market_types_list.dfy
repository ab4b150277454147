/**
  * `MarketGroups/MarketTypes.tsx`: the group's market types as a numbered
  * list showing each type's name, with a button that removes a type.
  */
module MarketTypesList {
  import opened JsValues
  import opened SeqUtil
  import opened MarketGroupTypes

  /** The test `marketType.id !== id`. */
  function IdIsNot(id: int): MarketTypeRef -> bool {
    (mt: MarketTypeRef) => mt.id != id
  }

  /** `removeMarketType(id)`: the group's list without any entry of that id, the rest in order. */
  function RemoveMarketType(groupTypes: seq<MarketTypeRef>, id: int): (r: seq<MarketTypeRef>)
    ensures forall i :: 0 <= i < |r| ==> r[i].id != id
    ensures forall i :: 0 <= i < |groupTypes| && groupTypes[i].id != id ==> groupTypes[i] in r
    ensures forall t: MarketTypeRef :: t.id != id ==> multiset(r)[t] == multiset(groupTypes)[t]
    ensures IsSubsequence(r, groupTypes)
  {
    FilterIsSubsequence(groupTypes, IdIsNot(id));
    Filter(groupTypes, IdIsNot(id))
  }

  /** Removing an id the group does not hold sends the list unchanged. */
  lemma RemoveAbsentIsUnchanged(groupTypes: seq<MarketTypeRef>, id: int)
    requires forall i :: 0 <= i < |groupTypes| ==> groupTypes[i].id != id
    ensures RemoveMarketType(groupTypes, id) == groupTypes
  {
    FilterAll(groupTypes, IdIsNot(id));
  }

  /** `sportMarketTypes?.filter((type) => type.id === id)[0]?.name`; `None` is `undefined`. */
  function DisplayName(sport: seq<MarketType>, id: int): (r: Option<string>)
    ensures r.None? <==> forall i :: 0 <= i < |sport| ==> sport[i].id != id
    ensures r.Some? ==> exists k :: (0 <= k < |sport| && sport[k].id == id && sport[k].name == r.value &&
      forall j :: 0 <= j < k ==> sport[j].id != id)
  {
    if sport == [] then None
    else if sport[0].id == id then Some(sport[0].name)
    else
      var r := DisplayName(sport[1..], id);
      if r.Some? then
        assert exists k :: (0 <= k < |sport| && sport[k].id == id && sport[k].name == r.value &&
          forall j :: 0 <= j < k ==> sport[j].id != id)
        by {
          var k :| 0 <= k < |sport| - 1 && sport[1..][k].id == id && sport[1..][k].name == r.value &&
            forall j :: 0 <= j < k ==> sport[1..][j].id != id;
          assert sport[k + 1] == sport[1..][k];
          assert forall j :: 1 <= j < k + 1 ==> sport[j] == sport[1..][j - 1];
        }
        r
      else r
  }

  /** One line of the list: the type's name and its 1-based number. */
  datatype DisplayRow = DisplayRow(name: Option<string>, number: int)

  /** The rendered list: one line per group entry, numbered from 1 in list order. */
  function DisplayRows(groupTypes: seq<MarketTypeRef>, sport: seq<MarketType>): (r: seq<DisplayRow>)
    ensures |r| == |groupTypes|
    ensures forall i :: 0 <= i < |r| ==> r[i].number == i + 1 && r[i].name == DisplayName(sport, groupTypes[i].id)
  {
    seq(|groupTypes|, i requires 0 <= i < |groupTypes| => DisplayRow(DisplayName(sport, groupTypes[i].id), i + 1))
  }
}
