/**
  * The market-group editor's records: a sport's market type (the fields the
  * editor reads of `IMarketType`, whose declaration is not part of this
  * model), a group's entry for one market type, and `MarketGroup` as
  * `MarketGroups/Sidebar/index.tsx` declares it.
  */
module MarketGroupTypes {
  /** A market type of the selected sport. */
  datatype MarketType = MarketType(id: int, name: string, parameters: seq<string>)

  /** A group's entry for one market type: `{id, parameters}`. */
  datatype MarketTypeRef = MarketTypeRef(id: int, parameters: seq<string>)

  datatype MarketGroup = MarketGroup(
    forbiddenParameters: seq<string>,
    id: int,
    marketTypes: seq<MarketTypeRef>,
    name: string,
    order: int,
    requiredParameters: seq<string>,
    sportId: int)

  /** `EnvMarketGroups`: which service the page edits. */
  datatype EnvMarketGroups = Frontend | Backoffice

  /** The enum's string values, used in the request routes. */
  function EnvName(env: EnvMarketGroups): string {
    match env
    case Frontend => "market-groups"
    case Backoffice => "backoffice-market-groups"
  }

  /** `{ id: market.id, parameters: market.parameters }` */
  function RefOf(mt: MarketType): MarketTypeRef {
    MarketTypeRef(mt.id, mt.parameters)
  }

  /** The list's entries with only `id` and `parameters` kept, in order. */
  function Refs(types: seq<MarketType>): (r: seq<MarketTypeRef>)
    ensures |r| == |types|
    ensures forall i :: 0 <= i < |types| ==> r[i] == RefOf(types[i])
  {
    if types == [] then [] else [RefOf(types[0])] + Refs(types[1..])
  }
}
