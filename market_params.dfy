/**
  * `MarketGroups/MarketParams.tsx`: a group's required market parameters.
  * The offered parameters are those of the sport's market types not already
  * required; adding or removing one sends the whole new list, with no
  * forbidden parameters, and the select is cleared afterwards either way.
  */
module MarketParams {
  import opened JsValues
  import opened SeqUtil
  import opened MarketGroupTypes

  /** Every type's parameters, in order, repeats included: the array the `forEach` fills. */
  function AllParameters(sport: seq<MarketType>): seq<string> {
    if sport == [] then [] else AllParameters(sport[..|sport| - 1]) + sport[|sport| - 1].parameters
  }

  lemma {:induction false} AllParametersMember(sport: seq<MarketType>, p: string)
    ensures p in AllParameters(sport) <==> exists i :: 0 <= i < |sport| && p in sport[i].parameters
  {
    if sport != [] {
      var init := sport[..|sport| - 1];
      AllParametersMember(init, p);
      assert forall i :: 0 <= i < |init| ==> init[i] == sport[i];
      if p in AllParameters(sport) && p !in AllParameters(init) {
        assert p in sport[|sport| - 1].parameters;
      }
    }
  }

  /**
    * `defaultSportParams`: the `forEach` pushes every type's parameters, then
    * `Array.from(new Set(parameters))` keeps each once, in first-occurrence order.
    */
  method DefaultSportParams(sport: seq<MarketType>) returns (params: seq<string>)
    ensures params == Dedupe(AllParameters(sport))
  {
    var parameters := [];
    var i := 0;
    while i < |sport|
      invariant 0 <= i <= |sport|
      invariant parameters == AllParameters(sport[..i])
    {
      assert sport[..i + 1][..i] == sport[..i];
      parameters := parameters + sport[i].parameters;
      i := i + 1;
    }
    assert sport[..|sport|] == sport;
    params := Dedupe(parameters);
  }

  /** The sport's parameter list holds each parameter of any of its types, once. */
  lemma DefaultSportParamsFacts(sport: seq<MarketType>, p: string)
    ensures NoDuplicates(Dedupe(AllParameters(sport)))
    ensures p in Dedupe(AllParameters(sport)) <==> exists i :: 0 <= i < |sport| && p in sport[i].parameters
  {
    AllParametersMember(sport, p);
    var all := AllParameters(sport);
    if p in all {
      var k :| 0 <= k < |all| && all[k] == p;
      assert all[k] in Dedupe(all);
    }
  }

  /** `defaultSportParams.filter((p) => !requiredParameters.includes(p))` */
  function OfferedParameters(defaults: seq<string>, required: seq<string>): (r: seq<string>)
    ensures forall i :: 0 <= i < |r| ==> r[i] in defaults && r[i] !in required
    ensures forall i :: 0 <= i < |defaults| && defaults[i] !in required ==> defaults[i] in r
    ensures forall p :: p !in required ==> multiset(r)[p] == multiset(defaults)[p]
    ensures IsSubsequence(r, defaults)
  {
    FilterIsSubsequence(defaults, (p: string) => p !in required);
    Filter(defaults, (p: string) => p !in required)
  }

  /** The test `param !== value`. */
  function IsNot(value: string): string -> bool {
    (p: string) => p != value
  }

  /** `[...requiredParameters, value]` */
  function AddedParameters(required: seq<string>, value: string): (r: seq<string>)
    ensures |r| == |required| + 1 && r[..|required|] == required && r[|required|] == value
  {
    required + [value]
  }

  /** `requiredParameters.filter((param) => param !== value)` */
  function RemovedParameters(required: seq<string>, value: string): (r: seq<string>)
    ensures value !in r
    ensures forall p :: p in required && p != value ==> p in r
    ensures forall p :: p != value ==> multiset(r)[p] == multiset(required)[p]
    ensures IsSubsequence(r, required)
  {
    FilterIsSubsequence(required, IsNot(value));
    Filter(required, IsNot(value))
  }

  /** Removing a parameter that was just added to a list without it gives the list back. */
  lemma RemoveUndoesAdd(required: seq<string>, value: string)
    requires value !in required
    ensures RemovedParameters(AddedParameters(required, value), value) == required
  {
    FilterAppend(required, [value], IsNot(value));
    FilterAll(required, IsNot(value));
    assert Filter([value], IsNot(value)) == Filter([], IsNot(value));
  }

  /** The `PUT` body and route: the new required list and always `forbiddenParameters: []`. */
  datatype ParametersRequest = ParametersRequest(id: int, envMarketGroups: EnvMarketGroups,
                                                 requiredParameters: seq<string>, forbiddenParameters: seq<string>)

  class MarketParamsView {
    var loading: bool
    /** The select's value. */
    var value: string

    constructor ()
      ensures !loading && value == ""
    {
      loading := false;
      value := "";
    }

    /**
      * `selectParameter(param)`: sends the list with `param` appended; the
      * server's group, if it answers, goes to `onUpdate`; then loading ends
      * and the select is cleared.
      */
    method SelectParameter(env: EnvMarketGroups, marketGroupId: int, required: seq<string>, param: string,
                           response: Option<MarketGroup>)
      returns (request: ParametersRequest, updated: Option<MarketGroup>)
      modifies this
      ensures request == ParametersRequest(marketGroupId, env, AddedParameters(required, param), [])
      ensures updated == response
      ensures !loading && value == ""
    {
      loading := true;
      request := ParametersRequest(marketGroupId, env, AddedParameters(required, param), []);
      updated := response;
      loading := false;
      value := "";
    }

    /**
      * `removeParameter(param)`: sends the list without any `param`; then as
      * for an add.
      */
    method RemoveParameter(env: EnvMarketGroups, marketGroupId: int, required: seq<string>, param: string,
                           response: Option<MarketGroup>)
      returns (request: ParametersRequest, updated: Option<MarketGroup>)
      modifies this
      ensures request == ParametersRequest(marketGroupId, env, RemovedParameters(required, param), [])
      ensures updated == response
      ensures !loading && value == ""
    {
      loading := true;
      request := ParametersRequest(marketGroupId, env, RemovedParameters(required, param), []);
      updated := response;
      loading := false;
      value := "";
    }
  }
}
