/** The OpenRTB SupplyChain object a publisher attaches to a bid request, and
    the adapter's check that every node names its seller (`asi`), its seller
    account (`sid`) and whether it took part in the payment (`hp`). */
module Schain {
  import opened Js

  datatype SchainNode = SchainNode(asi: JsValue, sid: JsValue, hp: JsValue, rid: JsValue)

  /** `nodes` is None when the property is missing (or null). */
  datatype SupplyChain = SupplyChain(ver: JsValue, complete: JsValue, nodes: Option<seq<SchainNode>>)

  /** `requiredFields.every(field => node[field])` */
  predicate NodeComplete(n: SchainNode) {
    Truthy(n.asi) && Truthy(n.sid) && Truthy(n.hp)
  }

  /** `nodes.every(...)`, node by node. */
  function EveryNodeComplete(nodes: seq<SchainNode>): (b: bool)
    ensures b <==> forall i :: 0 <= i < |nodes| ==> NodeComplete(nodes[i])
  {
    if nodes == [] then true else NodeComplete(nodes[0]) && EveryNodeComplete(nodes[1..])
  }

  /** `validateSchain`: false without `nodes`; an empty node list passes
      (an empty array is truthy). */
  function ValidateSchain(sc: SupplyChain): (b: bool)
    ensures b <==> sc.nodes.Some? && forall i :: 0 <= i < |sc.nodes.value| ==> NodeComplete(sc.nodes.value[i])
  {
    if sc.nodes.None? then false else EveryNodeComplete(sc.nodes.value)
  }

  /** `mapSchain`: the chain itself when it is present and valid, null otherwise. */
  function MapSchain(sc: Option<SupplyChain>): (r: Option<SupplyChain>)
    ensures r.Some? <==> sc.Some? && ValidateSchain(sc.value)
    ensures r.Some? ==> r == sc
  {
    if sc.None? then None
    else if !ValidateSchain(sc.value) then None
    else sc
  }
}
