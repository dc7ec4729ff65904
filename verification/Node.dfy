/** The role of a node in a pipeline, told from the layers it runs. */
module Nodes {
  import opened Core

  /** The layers a node runs, out of `total`. */
  datatype NodeConfig = NodeConfig(start: nat, end: nat, total: nat) {
    predicate Valid() { start < end <= total }

    /** Owns the embedding. */
    predicate IsHead() { start == 0 }

    /** Owns the final norm and the LM head. */
    predicate IsTail() { end == total }

    function NumLayers(): nat requires Valid() { end - start }
  }

  /** `NodeConfig::new`: refuses an empty range and one that exceeds the model. */
  function NewNodeConfig(start: nat, end: nat, total: nat): (r: Result<NodeConfig>)
    ensures r.Ok? <==> start < end <= total
    ensures r.Ok? ==> r.value.start == start && r.value.end == end && r.value.total == total
    ensures r.Ok? ==> r.value.Valid() && (r.value.IsHead() && r.value.IsTail() <==> r.value.NumLayers() == total)
  {
    if end <= start || end > total then Err(Pipeline) else Ok(NodeConfig(start, end, total))
  }

  predicate AllBelow(ps: seq<nat>, maxSeqLen: nat) {
    forall i :: 0 <= i < |ps| ==> ps[i] < maxSeqLen
  }

  /** The position bounds check of both engines. */
  method PositionsInRange(ps: seq<nat>, maxSeqLen: nat) returns (ok: bool)
    ensures ok <==> AllBelow(ps, maxSeqLen)
  {
    for i := 0 to |ps|
      invariant forall j :: 0 <= j < i ==> ps[j] < maxSeqLen
    {
      if ps[i] >= maxSeqLen { return false; }
    }
    ok := true;
  }
}
