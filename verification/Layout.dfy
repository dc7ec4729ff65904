/**
 How a pipeline lays the layers of a model over workers, and what running the workers one
 after the other amounts to.
 */
module PipelineLayout {
  import opened Core
  import opened Transformer
  import opened Nodes

  type NodeId = string

  datatype LayerAssignment = LayerAssignment(nodeId: NodeId, start: nat, end: nat)

  /** Non-empty ranges, each starting where the one before ends, the first at `from`. */
  ghost predicate Contiguous(parts: seq<LayerAssignment>, from: nat) {
    (forall i :: 0 <= i < |parts| ==> parts[i].start < parts[i].end) &&
    (forall i, j :: 0 <= i && j == i + 1 && j < |parts| ==> parts[j].start == parts[i].end) &&
    (parts != [] ==> parts[0].start == from)
  }

  function EndOf(parts: seq<LayerAssignment>, from: nat): nat {
    if parts == [] then from else parts[|parts| - 1].end
  }

  /** The ranges are a partition of the layers 0..total, in order. */
  ghost predicate Tiles(parts: seq<LayerAssignment>, total: nat) {
    parts != [] && Contiguous(parts, 0) && EndOf(parts, 0) == total
  }

  /** The check of `DistributedPipeline::new`: the number of layers covered, or an error. */
  method CheckAssignments(parts: seq<LayerAssignment>) returns (r: Result<nat>)
    ensures r.Ok? <==> parts != [] && Contiguous(parts, 0)
    ensures r.Ok? ==> Tiles(parts, r.value)
    ensures r.Err? ==> r.error == Pipeline
  {
    if parts == [] { return Err(Pipeline); }
    var expectedStart := 0;
    for i := 0 to |parts|
      invariant Contiguous(parts[..i], 0) && expectedStart == EndOf(parts[..i], 0)
    {
      var a := parts[i];
      assert i > 0 ==> parts[..i][i - 1] == parts[i - 1];
      if a.start != expectedStart || a.end <= a.start { return Err(Pipeline); }
      expectedStart := a.end;
    }
    assert parts[..|parts|] == parts;
    r := Ok(expectedStart);
  }

  // ----- what contiguous ranges mean -----

  lemma {:induction false} Ascending(parts: seq<LayerAssignment>, from: nat, i: nat, j: nat)
    requires Contiguous(parts, from) && i < j < |parts|
    ensures parts[i].end <= parts[j].start
    decreases j
  {
    if i + 1 < j {
      Ascending(parts, from, i, j - 1);
    }
  }

  /** Every layer is in exactly one range. */
  lemma {:induction false} EachLayerOnce(parts: seq<LayerAssignment>, total: nat, l: nat)
    requires Tiles(parts, total)
    ensures l < total <==> exists i :: 0 <= i < |parts| && parts[i].start <= l < parts[i].end
    ensures forall i, j ::
      0 <= i < |parts| && 0 <= j < |parts| && parts[i].start <= l < parts[i].end &&
      parts[j].start <= l < parts[j].end ==>
        i == j
  {
    forall i, j | 0 <= i < |parts| && 0 <= j < |parts| && parts[i].start <= l < parts[i].end &&
    parts[j].start <= l < parts[j].end
      ensures i == j
    {
      if i < j { Ascending(parts, 0, i, j); } else if j < i { Ascending(parts, 0, j, i); }
    }
    if l < total {
      var i := FindLayer(parts, total, l);
    }
    forall i | 0 <= i < |parts| && parts[i].start <= l < parts[i].end
      ensures l < total
    {
      if i < |parts| - 1 { Ascending(parts, 0, i, |parts| - 1); }
    }
  }

  lemma {:induction false} FindLayer(parts: seq<LayerAssignment>, total: nat, l: nat) returns (i: nat)
    requires Tiles(parts, total) && l < total
    ensures i < |parts| && parts[i].start <= l < parts[i].end
  {
    i := 0;
    while parts[i].end <= l
      invariant 0 <= i < |parts| && parts[i].start <= l
      decreases |parts| - i
    {
      i := i + 1;
    }
  }

  /** The role a worker sees in its own layer range is its place in the pipeline. */
  lemma {:induction false} RolesAgree(parts: seq<LayerAssignment>, total: nat, i: nat)
    requires Tiles(parts, total) && i < |parts|
    ensures var cfg := NodeConfig(parts[i].start, parts[i].end, total);
            cfg.Valid() && (cfg.IsHead() <==> i == 0) && (cfg.IsTail() <==> i == |parts| - 1)
  {
    if i > 0 { Ascending(parts, 0, 0, i); }
    if i < |parts| - 1 { Ascending(parts, 0, i, |parts| - 1); }
  }

  // ----- one stage after the other -----

  datatype Chained = Chained(rows: seq<Row>, css: seq<seq<KV>>)

  /** Stage i has a cache for each of its layers. */
  ghost predicate CachesFit(parts: seq<LayerAssignment>, css: seq<seq<KV>>) {
    |css| == |parts| &&
    forall i :: 0 <= i < |parts| ==> parts[i].start + |css[i]| == parts[i].end && Paired(css[i])
  }

  ghost predicate Within(parts: seq<LayerAssignment>, total: nat) {
    forall i :: 0 <= i < |parts| ==> parts[i].start <= parts[i].end <= total
  }

  lemma {:induction false} TilesWithin(parts: seq<LayerAssignment>, total: nat)
    requires Tiles(parts, total)
    ensures Within(parts, total)
  {
    forall i | 0 <= i < |parts|
      ensures parts[i].end <= total
    {
      if i < |parts| - 1 { Ascending(parts, 0, i, |parts| - 1); }
    }
  }

  /** The rows after all stages, and the caches each stage is left with. */
  ghost function Chain(m: Model, parts: seq<LayerAssignment>, css: seq<seq<KV>>, xs: seq<Row>,
                       ps: seq<nat>): (r: Chained)
    requires |xs| == |ps| && CachesFit(parts, css)
    requires Within(parts, |m.layers|)
    ensures |r.rows| == |xs| && CachesFit(parts, r.css)
    decreases |parts|
  {
    if parts == [] then Chained(xs, [])
    else
      var step := NodeCached(m.ops, m.layers[parts[0].start..parts[0].end], css[0], xs, ps);
      var rest := Chain(m, parts[1..], css[1..], step.hidden, ps);
      Chained(rest.rows, [step.caches] + rest.css)
  }

  lemma {:induction false} ConcatPaired(parts: seq<LayerAssignment>, css: seq<seq<KV>>, from: nat)
    requires Contiguous(parts, from) && CachesFit(parts, css)
    ensures from + |Concat(css)| == EndOf(parts, from) && Paired(Concat(css))
    decreases |parts|
  {
    if parts != [] {
      ConcatPaired(parts[1..], css[1..], parts[0].end);
    }
  }

  lemma {:induction false} ChainFrom(m: Model, parts: seq<LayerAssignment>, css: seq<seq<KV>>, xs: seq<Row>,
                                     ps: seq<nat>, from: nat)
    requires |xs| == |ps| && CachesFit(parts, css) && Contiguous(parts, from) && EndOf(parts, from) <= |m.layers|
    requires Within(parts, |m.layers|)
    ensures from <= EndOf(parts, from)
    ensures |Concat(css)| == EndOf(parts, from) - from && Paired(Concat(css))
    ensures var c := Chain(m, parts, css, xs, ps);
            NodeCached(m.ops, m.layers[from..EndOf(parts, from)], Concat(css), xs, ps) == NodeStep(c.rows,
              Concat(c.css))
    decreases |parts|
  {
    ConcatPaired(parts, css, from);
    if parts != [] {
      var a, end := parts[0], EndOf(parts, from);
      var first := NodeCached(m.ops, m.layers[a.start..a.end], css[0], xs, ps);
      ChainFrom(m, parts[1..], css[1..], first.hidden, ps, a.end);
      assert EndOf(parts[1..], a.end) == end;
      assert m.layers[from..end] == m.layers[a.start..a.end] + m.layers[a.end..end];
      NodeSplit(m.ops, m.layers[a.start..a.end], m.layers[a.end..end], css[0], Concat(css[1..]), xs, ps);
    }
  }

  /**
   Split pipelines keep the meaning.  For ranges that tile the model, the stages one after the
   other give the rows of one node that has all layers, and their caches one after the other
   are its cache.
   */
  lemma {:induction false} ChainIsWhole(m: Model, parts: seq<LayerAssignment>, css: seq<seq<KV>>, xs: seq<Row>,
                                        ps: seq<nat>)
    requires |xs| == |ps| && CachesFit(parts, css) && Tiles(parts, |m.layers|)
    ensures Within(parts, |m.layers|)
    ensures |Concat(css)| == |m.layers| && Paired(Concat(css))
    ensures var c := Chain(m, parts, css, xs, ps);
            NodeCached(m.ops, m.layers, Concat(css), xs, ps) == NodeStep(c.rows, Concat(c.css))
  {
    TilesWithin(parts, |m.layers|);
    ChainFrom(m, parts, css, xs, ps, 0);
    assert m.layers[0..|m.layers|] == m.layers;
  }
}
