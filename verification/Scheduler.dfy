/**
 The layer scheduler: how many layers each node gets in the three modes, over exact
 arithmetic.  Timings are real numbers here.
 */
module LayerScheduler {
  import opened Core
  import opened PipelineLayout
  import opened Sorting

  datatype ModelConfig = ModelConfig(
    numLayers: nat, hiddenSize: nat, numKvHeads: nat, headDim: nat, intermediateSize: nat, vocabSize: nat)

  datatype Capabilities = Capabilities(nodeId: NodeId, memory: nat, decodeMs: real, prefillMs: real)

  const MAX_PLAUSIBLE_MS: real := 500.0

  predicate Plausible(w: Capabilities) {
    0.0 < w.decodeMs <= MAX_PLAUSIBLE_MS && 0.0 < w.prefillMs <= MAX_PLAUSIBLE_MS
  }

  predicate AllPlausible(ws: seq<Capabilities>) {
    forall i :: 0 <= i < |ws| ==> Plausible(ws[i])
  }

  // ----- memory -----

  function WeightBytes(c: ModelConfig): nat {
    var h, kv, inter := c.hiddenSize, c.numKvHeads * c.headDim, c.intermediateSize;
    (h * h + h * kv + h * kv + h * h + h * inter + h * inter + inter * h) * 2 + h * 2 * 2
  }

  function CacheBytes(c: ModelConfig, maxSeqLen: nat): nat {
    maxSeqLen * (c.numKvHeads * c.headDim) * 2 * 2
  }

  function HeadBytes(c: ModelConfig): nat { c.vocabSize * c.hiddenSize * 2 }

  function TailBytes(c: ModelConfig): nat { c.hiddenSize * 2 + c.vocabSize * c.hiddenSize * 2 }

  /** What the i-th of n nodes needs besides its layers. */
  function RoleOverhead(c: ModelConfig, i: nat, n: nat): nat {
    (if i == 0 then HeadBytes(c) else 0) + (if i + 1 == n then TailBytes(c) else 0)
  }

  function SaturatingSub(a: nat, b: nat): nat { if a < b then 0 else a - b }

  /** Layers that fit into a node's memory; none when a layer takes no memory. */
  function MaxLayers(memory: nat, perLayer: nat, overhead: nat): (n: nat)
    ensures n > 0 ==> n * perLayer + overhead <= memory
    ensures perLayer > 0 && overhead <= memory ==> memory < (n + 1) * perLayer + overhead
  {
    if perLayer == 0 then 0
    else
      var room := SaturatingSub(memory, overhead);
      assert room / perLayer * perLayer <= room;
      room / perLayer
  }

  /** The ceilings of all nodes. */
  function Ceilings(ws: seq<Capabilities>, perLayer: nat, c: ModelConfig): (ms: seq<nat>)
    ensures |ms| == |ws|
  {
    seq(|ws|, i requires 0 <= i < |ws| => MaxLayers(ws[i].memory, perLayer, RoleOverhead(c, i, |ws|)))
  }

  // ----- sums -----

  function Sum(s: seq<nat>): nat {
    if s == [] then 0 else Sum(s[..|s| - 1]) + s[|s| - 1]
  }

  lemma {:induction false} SumUpdate(s: seq<nat>, i: nat, x: nat)
    requires i < |s|
    ensures Sum(s[i := x]) == Sum(s) - s[i] + x
  {
    var t := s[..|s| - 1];
    if i == |s| - 1 {
      assert s[i := x][..|s| - 1] == t;
    } else {
      SumUpdate(t, i, x);
      assert s[i := x][..|s| - 1] == t[i := x];
    }
  }

  lemma {:induction false} SumMonotone(s: seq<nat>, t: seq<nat>)
    requires |s| == |t| && forall i :: 0 <= i < |s| ==> s[i] <= t[i]
    ensures Sum(s) <= Sum(t)
  {
    if s != [] { SumMonotone(s[..|s| - 1], t[..|t| - 1]); }
  }

  lemma {:induction false} SumZero(s: seq<nat>)
    requires forall i :: 0 <= i < |s| ==> s[i] == 0
    ensures Sum(s) == 0
  {
    if s != [] { SumZero(s[..|s| - 1]); }
  }

  // ----- redistribution -----

  ghost predicate AtMost(counts: seq<nat>, ceilings: seq<nat>) {
    |counts| == |ceilings| && forall i :: 0 <= i < |counts| ==> counts[i] <= ceilings[i]
  }

  /** Node a is preferred to node b: strictly faster, or as fast and earlier in the list. */
  ghost predicate Before(ws: seq<Capabilities>, a: nat, b: nat)
    requires a < |ws| && b < |ws|
  {
    ws[a].decodeMs < ws[b].decodeMs || (ws[a].decodeMs == ws[b].decodeMs && a < b)
  }

  /** Layers were only added, and to no node while one before it had room. */
  ghost predicate AddedGreedily(ws: seq<Capabilities>, counts: seq<nat>, counts': seq<nat>, ceilings: seq<nat>) {
    |counts| == |counts'| == |ceilings| == |ws| &&
    (forall i :: 0 <= i < |ws| ==> counts[i] <= counts'[i]) &&
    (forall i, j :: 0 <= i < |ws| && 0 <= j < |ws| && counts[i] < counts'[i] && Before(ws, j, i) ==>
       counts'[j] == ceilings[j])
  }

  /** Layers were only taken, and from no node while a slower one had any. */
  ghost predicate TakenGreedily(ws: seq<Capabilities>, counts: seq<nat>, counts': seq<nat>) {
    |counts| == |counts'| == |ws| &&
    (forall i :: 0 <= i < |ws| ==> counts'[i] <= counts[i]) &&
    (forall i, j :: 0 <= i < |ws| && 0 <= j < |ws| && counts'[i] < counts[i] && ws[i].decodeMs < ws[j].decodeMs ==>
       counts'[j] == 0)
  }

  /** The fastest of the first n nodes that has room, the earliest of them. */
  function FastestFree(ws: seq<Capabilities>, counts: seq<nat>, ceilings: seq<nat>, n: nat): (best: Option<nat>)
    requires n <= |ws| == |counts| == |ceilings|
    ensures best.Some? ==> best.value < n && counts[best.value] < ceilings[best.value]
  {
    if n == 0 then None
    else
      var best := FastestFree(ws, counts, ceilings, n - 1);
      if counts[n - 1] < ceilings[n - 1] &&
      (best.None? || ws[n - 1].decodeMs < ws[best.value].decodeMs) then Some(n - 1) else best
  }

  /** The slowest of the first n nodes that has a layer, the earliest of them. */
  function SlowestBusy(ws: seq<Capabilities>, counts: seq<nat>, n: nat): (worst: Option<nat>)
    requires n <= |ws| == |counts|
    ensures worst.Some? ==> worst.value < n && counts[worst.value] > 0
  {
    if n == 0 then None
    else
      var worst := SlowestBusy(ws, counts, n - 1);
      if counts[n - 1] > 0 && (worst.None? || ws[worst.value].decodeMs < ws[n - 1].decodeMs) then Some(n - 1) else worst
  }

  /** The fastest node with room, the earliest of them. */
  method FastestWithRoom(ws: seq<Capabilities>, counts: seq<nat>, ceilings: seq<nat>) returns (best: Option<nat>)
    requires AllPlausible(ws) && |counts| == |ceilings| == |ws|
    ensures best == FastestFree(ws, counts, ceilings, |ws|)
    ensures best.None? ==> forall i :: 0 <= i < |ws| ==> counts[i] >= ceilings[i]
    ensures best.Some? ==> best.value < |ws| && counts[best.value] < ceilings[best.value]
    ensures best.Some? ==> forall j :: 0 <= j < |ws| && Before(ws, j, best.value) ==> counts[j] >= ceilings[j]
  {
    best := None;
    var bestSpeed := 0.0;
    for i := 0 to |ws|
      invariant best == FastestFree(ws, counts, ceilings, i)
      invariant best.None? ==> bestSpeed == 0.0 && forall j :: 0 <= j < i ==> counts[j] >= ceilings[j]
      invariant best.Some? ==>
        best.value < i && counts[best.value] < ceilings[best.value] && bestSpeed == 1.0 / ws[best.value].decodeMs
      invariant best.Some? ==> forall j :: 0 <= j < i && counts[j] < ceilings[j] ==> !Before(ws, j, best.value)
    {
      if counts[i] < ceilings[i] {
        assert Plausible(ws[i]);
        var speed := 1.0 / ws[i].decodeMs;
        if best.Some? {
          assert Plausible(ws[best.value]);
          SpeedOrder(ws[best.value].decodeMs, ws[i].decodeMs);
        }
        if best.None? || speed > bestSpeed {
          bestSpeed := speed;
          best := Some(i);
        }
      }
    }
  }

  lemma {:induction false} SpeedOrder(a: real, b: real)
    requires a > 0.0 && b > 0.0
    ensures 1.0 / a < 1.0 / b <==> b < a
  {
    assert 1.0 / a - 1.0 / b == (b - a) / (a * b);
  }

  /** The slowest node that has a layer. */
  method SlowestWithLayers(ws: seq<Capabilities>, counts: seq<nat>) returns (worst: Option<nat>)
    requires AllPlausible(ws) && |counts| == |ws|
    ensures worst == SlowestBusy(ws, counts, |ws|)
    ensures worst.None? ==> forall i :: 0 <= i < |ws| ==> counts[i] == 0
    ensures worst.Some? ==> worst.value < |ws| && counts[worst.value] > 0
    ensures worst.Some? ==> forall j :: 0 <= j < |ws| && ws[worst.value].decodeMs < ws[j].decodeMs ==> counts[j] == 0
  {
    worst := None;
    var worstSpeed := 0.0;
    for i := 0 to |ws|
      invariant worst == SlowestBusy(ws, counts, i)
      invariant worst.None? ==> forall j :: 0 <= j < i ==> counts[j] == 0
      invariant worst.Some? ==>
        worst.value < i && counts[worst.value] > 0 && worstSpeed == 1.0 / ws[worst.value].decodeMs
      invariant worst.Some? ==> forall j :: 0 <= j < i && counts[j] > 0 ==> ws[j].decodeMs <= ws[worst.value].decodeMs
    {
      if counts[i] > 0 {
        assert Plausible(ws[i]);
        var speed := 1.0 / ws[i].decodeMs;
        if worst.Some? {
          assert Plausible(ws[worst.value]);
          SpeedOrder(ws[i].decodeMs, ws[worst.value].decodeMs);
        }
        if worst.None? || speed < worstSpeed {
          worstSpeed := speed;
          worst := Some(i);
        }
      }
    }
  }

  lemma {:induction false} AddOne(ws: seq<Capabilities>, counts: seq<nat>, counts': seq<nat>, ceilings: seq<nat>,
                                  i: nat)
    requires AddedGreedily(ws, counts, counts', ceilings) && AtMost(counts', ceilings) && i < |ws| &&
             counts'[i] < ceilings[i]
    requires forall j :: 0 <= j < |ws| && Before(ws, j, i) ==> counts'[j] >= ceilings[j]
    ensures AddedGreedily(ws, counts, counts'[i := counts'[i] + 1], ceilings) &&
            AtMost(counts'[i := counts'[i] + 1], ceilings)
    ensures Sum(counts'[i := counts'[i] + 1]) == Sum(counts') + 1
  {
    SumUpdate(counts', i, counts'[i] + 1);
  }

  lemma {:induction false} TakeOne(ws: seq<Capabilities>, counts: seq<nat>, counts': seq<nat>, i: nat)
    requires TakenGreedily(ws, counts, counts') && i < |ws| && counts'[i] > 0
    requires forall j :: 0 <= j < |ws| && ws[i].decodeMs < ws[j].decodeMs ==> counts'[j] == 0
    ensures TakenGreedily(ws, counts, counts'[i := counts'[i] - 1])
    ensures Sum(counts'[i := counts'[i] - 1]) == Sum(counts') - 1
  {
    SumUpdate(counts', i, counts'[i] - 1);
  }

  lemma {:induction false} NothingLeft(counts: seq<nat>, ceilings: seq<nat>)
    requires AtMost(counts, ceilings) && forall i :: 0 <= i < |counts| ==> counts[i] >= ceilings[i]
    ensures counts == ceilings
  {
  }

  /** One layer at a time to the fastest node with room, until there are enough or none has room. */
  function Filled(ws: seq<Capabilities>, counts: seq<nat>, ceilings: seq<nat>, numLayers: nat): (r: seq<nat>)
    requires |ws| == |counts| == |ceilings|
    ensures |r| == |counts|
    decreases numLayers - Sum(counts)
  {
    if Sum(counts) >= numLayers then counts
    else
      match FastestFree(ws, counts, ceilings, |ws|)
      case None => counts
      case Some(i) =>
        SumUpdate(counts, i, counts[i] + 1);
        Filled(ws, counts[i := counts[i] + 1], ceilings, numLayers)
  }

  /** One layer at a time from the slowest node with any, until there are not too many. */
  function Drained(ws: seq<Capabilities>, counts: seq<nat>, numLayers: nat): (r: seq<nat>)
    requires |ws| == |counts|
    ensures |r| == |counts|
    decreases Sum(counts)
  {
    if Sum(counts) <= numLayers then counts
    else
      match SlowestBusy(ws, counts, |ws|)
      case None => counts
      case Some(i) =>
        SumUpdate(counts, i, counts[i] - 1);
        Drained(ws, counts[i := counts[i] - 1], numLayers)
  }

  function Balanced(ws: seq<Capabilities>, counts: seq<nat>, ceilings: seq<nat>, numLayers: nat): (r: seq<nat>)
    requires |ws| == |counts| == |ceilings|
    ensures |r| == |counts|
  {
    Drained(ws, Filled(ws, counts, ceilings, numLayers), numLayers)
  }

  /**
   `redistribute_layers`, in place: the counts become `Balanced`.  With counts within their ceilings it succeeds iff the
   ceilings have room for all layers; then the counts add up, stay within the ceilings, and
   layers moved greedily: only to the fastest node with room, or only from the slowest with any.
   */
  method Redistribute(counts: array<nat>, ws: seq<Capabilities>, numLayers: nat, ceilings: seq<nat>)
    returns (r: Result<()>)
    requires AllPlausible(ws) && counts.Length == |ws| && AtMost(counts[..], ceilings)
    modifies counts
    ensures r.Ok? <==> Sum(ceilings) >= numLayers
    ensures r.Err? ==> r.error == Pipeline
    ensures |ceilings| == |ws| && (r.Ok? ==> counts[..] == Balanced(ws, old(counts[..]), ceilings, numLayers))
    ensures r.Ok? ==> Sum(counts[..]) == numLayers && AtMost(counts[..], ceilings)
    ensures r.Ok? && Sum(old(counts[..])) <= numLayers ==> AddedGreedily(ws, old(counts[..]), counts[..], ceilings)
    ensures r.Ok? && Sum(old(counts[..])) >= numLayers ==> TakenGreedily(ws, old(counts[..]), counts[..])
  {
    hide Sum, AtMost, AddedGreedily, TakenGreedily;
    ghost var was := counts[..];
    NoMoves(ws, was, ceilings);
    var total := SumUp(counts[..]);
    while total < numLayers
      invariant total == Sum(counts[..]) && AtMost(counts[..], ceilings) && |ceilings| == |ws|
      invariant Filled(ws, counts[..], ceilings, numLayers) == Filled(ws, was, ceilings, numLayers)
      invariant AddedGreedily(ws, was, counts[..], ceilings)
      invariant Sum(was) >= numLayers ==> counts[..] == was
      invariant Sum(was) < numLayers ==> total <= numLayers
      decreases numLayers - total
    {
      var best := FastestWithRoom(ws, counts[..], ceilings);
      if best.None? {
        SameLength(counts[..], ceilings);
        NothingLeft(counts[..], ceilings);
        return Err(Pipeline);
      }
      AddOne(ws, was, counts[..], ceilings, best.value);
      assert Filled(ws, counts[..], ceilings, numLayers) == Filled(ws,
                                                                   counts[..][best.value := counts[best.value] + 1],
                                                                   ceilings, numLayers);
      counts[best.value] := counts[best.value] + 1;
      total := total + 1;
    }
    ghost var mid := counts[..];
    assert mid == Filled(ws, was, ceilings, numLayers);
    while total > numLayers
      invariant Drained(ws, counts[..], numLayers) == Drained(ws, mid, numLayers)
      invariant total == Sum(counts[..]) && AtMost(counts[..], ceilings) && total >= numLayers
      invariant Sum(was) > numLayers ==> TakenGreedily(ws, was, counts[..])
      invariant Sum(was) <= numLayers ==> counts[..] == mid && total == numLayers
      decreases total
    {
      var worst := SlowestWithLayers(ws, counts[..]);
      if worst.None? {
        SumZero(counts[..]);
        assert false;
      }
      TakeOne(ws, was, counts[..], worst.value);
      LessStill(counts[..], ceilings, worst.value);
      assert Drained(ws, counts[..], numLayers) == Drained(ws, counts[..][worst.value := counts[worst.value] - 1],
                                                           numLayers);
      counts[worst.value] := counts[worst.value] - 1;
      total := total - 1;
    }
    Bounded(counts[..], ceilings);
    r := Ok(());
  }

  lemma {:induction false} NoMoves(ws: seq<Capabilities>, counts: seq<nat>, ceilings: seq<nat>)
    requires AtMost(counts, ceilings) && |counts| == |ws|
    ensures |ceilings| == |ws| && AddedGreedily(ws, counts, counts, ceilings) && TakenGreedily(ws, counts, counts)
  {
  }

  lemma {:induction false} SameLength(counts: seq<nat>, ceilings: seq<nat>)
    requires AtMost(counts, ceilings)
    ensures |counts| == |ceilings|
  {
  }

  lemma {:induction false} LessStill(counts: seq<nat>, ceilings: seq<nat>, i: nat)
    requires AtMost(counts, ceilings) && i < |counts| && counts[i] > 0
    ensures AtMost(counts[i := counts[i] - 1], ceilings)
  {
  }

  lemma {:induction false} Bounded(counts: seq<nat>, ceilings: seq<nat>)
    requires AtMost(counts, ceilings)
    ensures Sum(counts) <= Sum(ceilings)
  {
    SumMonotone(counts, ceilings);
  }

  method SumUp(s: seq<nat>) returns (total: nat)
    ensures total == Sum(s)
  {
    total := 0;
    for i := 0 to |s|
      invariant total == Sum(s[..i])
    {
      assert s[..i + 1][..i] == s[..i];
      total := total + s[i];
    }
    assert s[..|s|] == s;
  }

  // ----- the result -----

  datatype Role = Head | Middle | Tail

  datatype Assignment = Assignment(nodeId: NodeId, start: nat, end: nat, role: Role, expectedDecodeMs: real)

  datatype Exclusion = Exclusion(nodeId: NodeId, withMs: real, withoutMs: real)

  datatype Schedule = Schedule(
    assignments: seq<Assignment>,
    excluded: seq<Exclusion>,
    pipelineDecodeMs: real,
    bottleneck: NodeId)

  /** Node i gets the counts[i] layers behind those of the nodes before it, and the role of its place. */
  ghost predicate LaidAt(ws: seq<Capabilities>, counts: seq<nat>, a: Assignment, i: nat) {
    i < |ws| == |counts| &&
    a.nodeId == ws[i].nodeId && a.start == Sum(counts[..i]) && a.end == a.start + counts[i] &&
    a.role == (if i == 0 then Head else if i == |ws| - 1 then Tail else Middle) &&
    a.expectedDecodeMs == counts[i] as real * ws[i].decodeMs
  }

  ghost predicate Laid(ws: seq<Capabilities>, counts: seq<nat>, parts: seq<Assignment>) {
    |parts| == |ws| == |counts| && forall i :: 0 <= i < |parts| ==> LaidAt(ws, counts, parts[i], i)
  }

  function NodeTime(ws: seq<Capabilities>, counts: seq<nat>, i: nat): real
    requires i < |ws| == |counts|
  {
    counts[i] as real * ws[i].decodeMs
  }

  /** The hops between n nodes in a row. */
  function Hops(n: nat): (h: real)
    ensures if n == 0 then h == 0.0 else h + 1.0 == n as real
  {
    if n > 1 then (n - 1) as real else 0.0
  }

  /** The time of the pipeline is the time of its slowest node, the last of these, plus the hops between the nodes. */
  ghost predicate BottleneckAt(r: Schedule, hopMs: real, i: nat) {
    i < |r.assignments| && r.bottleneck == r.assignments[i].nodeId &&
    r.pipelineDecodeMs == r.assignments[i].expectedDecodeMs + (|r.assignments| - 1) as real * hopMs &&
    forall j :: 0 <= j < |r.assignments| ==>
      if j <= i then r.assignments[j].expectedDecodeMs <= r.assignments[i].expectedDecodeMs
      else r.assignments[j].expectedDecodeMs < r.assignments[i].expectedDecodeMs
  }

  lemma {:induction false} SumNext(s: seq<nat>, i: nat)
    requires i < |s|
    ensures Sum(s[..i + 1]) == Sum(s[..i]) + s[i]
  {
    assert s[..i + 1][..i] == s[..i];
  }

  /** `build_result`: running start, and the node with the largest time as the bottleneck. */
  method BuildResult(ws: seq<Capabilities>, counts: seq<nat>, excluded: seq<Exclusion>, hopMs: real)
    returns (r: Schedule)
    requires ws != [] && |counts| == |ws|
    ensures Laid(ws, counts, r.assignments) && r.excluded == excluded
    ensures exists i :: BottleneckAt(r, hopMs, i)
  {
    hide Sum;
    var parts: seq<Assignment> := [];
    var start := 0;
    var slowest := 0;
    assert Sum(counts[..0]) == 0 by { NoSum(counts); }
    for i := 0 to |ws|
      invariant |parts| == i && start == Sum(counts[..i])
      invariant forall j :: 0 <= j < i ==> LaidAt(ws, counts, parts[j], j)
      invariant slowest < |ws| && (i > 0 ==> slowest < i)
      invariant forall j :: 0 <= j < i ==>
        if j <= slowest then parts[j].expectedDecodeMs <= parts[slowest].expectedDecodeMs
        else parts[j].expectedDecodeMs < parts[slowest].expectedDecodeMs
    {
      SumNext(counts, i);
      var end := start + counts[i];
      var role := if i == 0 then Head else if i == |ws| - 1 then Tail else Middle;
      parts := parts + [Assignment(ws[i].nodeId, start, end, role, NodeTime(ws, counts, i))];
      if i == 0 || NodeTime(ws, counts, i) >= NodeTime(ws, counts, slowest) { slowest := i; }
      start := end;
    }
    r := Schedule(parts, excluded, NodeTime(ws, counts, slowest) + Hops(|ws|) * hopMs, ws[slowest].nodeId);
    assert BottleneckAt(r, hopMs, slowest);
  }

  lemma {:induction false} NoSum(s: seq<nat>)
    ensures Sum(s[..0]) == 0
  {
  }

  /** The assignments as the pipeline takes them. */
  function Layout(parts: seq<Assignment>): (ls: seq<LayerAssignment>)
    ensures |ls| == |parts|
  {
    seq(|parts|, i requires 0 <= i < |parts| => LayerAssignment(parts[i].nodeId, parts[i].start, parts[i].end))
  }

  /** The ranges follow each other from 0 to `total`; some may be empty. */
  ghost predicate Consecutive(parts: seq<Assignment>, total: nat) {
    parts != [] && parts[0].start == 0 && parts[|parts| - 1].end == total &&
    (forall i :: 0 <= i < |parts| ==> parts[i].start <= parts[i].end <= total) &&
    (forall i, j :: 0 <= i && j == i + 1 && j < |parts| ==> parts[j].start == parts[i].end)
  }

  /** Every node that has layers has the memory for them and for its role. */
  ghost predicate Fits(ws: seq<Capabilities>, parts: seq<Assignment>, perLayer: nat, c: ModelConfig) {
    |parts| == |ws| &&
    forall i :: 0 <= i < |parts| ==>
      parts[i].nodeId == ws[i].nodeId &&
      (parts[i].start < parts[i].end ==>
         (parts[i].end - parts[i].start) * perLayer + RoleOverhead(c, i, |ws|) <= ws[i].memory)
  }

  lemma {:induction false} SumPrefix(s: seq<nat>, i: nat)
    requires i <= |s|
    ensures Sum(s[..i]) <= Sum(s)
    decreases |s| - i
  {
    if i == |s| {
      assert s[..i] == s;
    } else {
      assert s[..i + 1][..i] == s[..i];
      SumPrefix(s, i + 1);
    }
  }

  /** Counts within the ceilings that add up give consecutive ranges that fit. */
  lemma {:induction false} LaidIsSound(ws: seq<Capabilities>, counts: seq<nat>, parts: seq<Assignment>, perLayer: nat,
                                       c: ModelConfig)
    requires ws != [] && Laid(ws, counts, parts) && AtMost(counts, Ceilings(ws, perLayer, c))
    ensures Consecutive(parts, Sum(counts)) && Fits(ws, parts, perLayer, c)
  {
    hide Sum, AtMost, Ceilings, RoleOverhead;
    LaidConsecutive(ws, counts, parts);
    forall i | 0 <= i < |parts|
      ensures parts[i].nodeId == ws[i].nodeId
      ensures parts[i].start < parts[i].end ==>
        (parts[i].end - parts[i].start) * perLayer + RoleOverhead(c, i, |ws|) <= ws[i].memory
    {
      assert LaidAt(ws, counts, parts[i], i);
      FitsOne(ws, counts, perLayer, c, i);
    }
  }

  lemma {:induction false} LaidConsecutive(ws: seq<Capabilities>, counts: seq<nat>, parts: seq<Assignment>)
    requires ws != [] && Laid(ws, counts, parts)
    ensures Consecutive(parts, Sum(counts))
  {
    hide Sum, NodeTime;
    NoSum(counts);
    assert counts[..|counts|] == counts;
    forall i | 0 <= i < |parts|
      ensures parts[i].start <= parts[i].end <= Sum(counts)
    {
      assert LaidAt(ws, counts, parts[i], i);
      SumNext(counts, i);
      SumPrefix(counts, i + 1);
    }
    forall i, j | 0 <= i && j == i + 1 && j < |parts|
      ensures parts[j].start == parts[i].end
    {
      assert LaidAt(ws, counts, parts[i], i) && LaidAt(ws, counts, parts[j], j);
      SumNext(counts, i);
    }
    var last := |parts| - 1;
    assert LaidAt(ws, counts, parts[0], 0) && LaidAt(ws, counts, parts[last], last);
    SumNext(counts, last);
  }

  lemma {:induction false} FitsOne(ws: seq<Capabilities>, counts: seq<nat>, perLayer: nat, c: ModelConfig, i: nat)
    requires AtMost(counts, Ceilings(ws, perLayer, c)) && i < |ws|
    ensures counts[i] > 0 ==> counts[i] * perLayer + RoleOverhead(c, i, |ws|) <= ws[i].memory
  {
    hide MaxLayers, RoleOverhead;
    Products(counts[i], MaxLayers(ws[i].memory, perLayer, RoleOverhead(c, i, |ws|)), perLayer);
  }

  lemma {:induction false} Products(a: nat, b: nat, c: nat)
    requires a <= b
    ensures a * c <= b * c
  {
  }

  /** The pipeline takes a schedule exactly when no node is left without layers. */
  lemma {:induction false} PipelineTakes(parts: seq<Assignment>, total: nat)
    requires Consecutive(parts, total)
    ensures Tiles(Layout(parts), total) <==> forall i :: 0 <= i < |parts| ==> parts[i].start < parts[i].end
  {
    var ls := Layout(parts);
    forall i | 0 <= i < |parts|
      ensures ls[i].start == parts[i].start && ls[i].end == parts[i].end
    {
    }
  }

  /** By counts: the pipeline takes what has been laid out iff every count is positive. */
  lemma {:induction false} PipelineTakesCounts(ws: seq<Capabilities>, counts: seq<nat>, parts: seq<Assignment>)
    requires ws != [] && Laid(ws, counts, parts)
    ensures Tiles(Layout(parts), Sum(counts)) <==> forall i :: 0 <= i < |counts| ==> counts[i] > 0
  {
    hide Sum, NodeTime, Tiles;
    LaidConsecutive(ws, counts, parts);
    PipelineTakes(parts, Sum(counts));
    forall i | 0 <= i < |parts|
      ensures parts[i].start < parts[i].end <==> counts[i] > 0
    {
      assert LaidAt(ws, counts, parts[i], i);
    }
  }

  // ----- EqualSplit -----

  /** The nodes by index, those with more memory first. */
  ghost predicate MemoryOrder(ws: seq<Capabilities>, order: seq<nat>) {
    |order| == |ws| && Distinct(order) && (forall i: nat :: i in order <==> i < |ws|) &&
    forall a, b :: 0 <= a < b < |order| && order[a] < |ws| && order[b] < |ws| ==>
      ws[order[a]].memory >= ws[order[b]].memory
  }

  /** The sort by available memory, largest first. */
  method SortByMemory(ws: seq<Capabilities>) returns (order: seq<nat>)
    ensures MemoryOrder(ws, order)
  {
    var key: nat -> int := (i: nat) => if i < |ws| then -(ws[i].memory as int) else 0;
    var indices: seq<nat> := seq(|ws|, i requires 0 <= i < |ws| => i);
    order := SortByKey(indices, key);
    forall i: nat
      ensures i in order <==> i < |ws|
    {
      if i < |ws| { assert indices[i] == i; }
    }
    forall a, b | 0 <= a < b < |order| && order[a] < |ws| && order[b] < |ws|
      ensures ws[order[a]].memory >= ws[order[b]].memory
    {
      assert key(order[a]) <= key(order[b]);
    }
  }

  /** Counts that differ by at most one, the larger ones on nodes with no less memory. */
  ghost predicate Even(ws: seq<Capabilities>, counts: seq<nat>, numLayers: nat) {
    |counts| == |ws| > 0 && Sum(counts) == numLayers &&
    (forall i :: 0 <= i < |ws| ==> numLayers / |ws| <= counts[i] <= numLayers / |ws| + 1) &&
    (forall i, j :: 0 <= i < |ws| && 0 <= j < |ws| && counts[j] < counts[i] ==> ws[i].memory >= ws[j].memory)
  }

  /** One more layer on the first t nodes of the order. */
  ghost predicate Handed(ws: seq<Capabilities>, order: seq<nat>, base: nat, counts: seq<nat>, t: nat) {
    |counts| == |ws| && t <= |order| && Sum(counts) == |ws| * base + t &&
    forall i :: 0 <= i < |ws| ==> counts[i] == if i in order[..t] then base + 1 else base
  }

  lemma {:induction false} SumConst(n: nat, base: nat)
    ensures Sum(seq(n, _ => base)) == n * base
  {
    if n > 0 {
      SumConst(n - 1, base);
      assert seq(n, _ => base)[..n - 1] == seq(n - 1, _ => base);
      assert n * base == (n - 1) * base + base;
    }
  }

  lemma {:induction false} HandOne(ws: seq<Capabilities>, order: seq<nat>, base: nat, counts: seq<nat>, t: nat)
    requires MemoryOrder(ws, order) && Handed(ws, order, base, counts, t) && t < |order|
    ensures order[t] < |ws| && Handed(ws, order, base, counts[order[t] := counts[order[t]] + 1], t + 1)
  {
    var k := order[t];
    assert k in order && k !in order[..t];
    SumUpdate(counts, k, counts[k] + 1);
    assert order[..t + 1] == order[..t] + [k];
  }

  lemma {:induction false} Divided(n: nat, d: nat)
    requires d > 0
    ensures d * (n / d) + n % d == n
  {
  }

  lemma {:induction false} HandedIsEven(ws: seq<Capabilities>, order: seq<nat>, counts: seq<nat>, numLayers: nat)
    requires ws != [] && MemoryOrder(ws, order) && Handed(ws, order, numLayers / |ws|, counts, numLayers % |ws|)
    ensures Even(ws, counts, numLayers)
  {
    var base, t := numLayers / |ws|, numLayers % |ws|;
    Divided(numLayers, |ws|);
    forall i, j | 0 <= i < |ws| && 0 <= j < |ws| && counts[j] < counts[i]
      ensures ws[i].memory >= ws[j].memory
    {
      MoreMemory(ws, order, base, counts, t, i, j);
    }
  }

  lemma {:induction false} MoreMemory(ws: seq<Capabilities>, order: seq<nat>, base: nat, counts: seq<nat>, t: nat,
                                      i: nat, j: nat)
    requires MemoryOrder(ws, order) && Handed(ws, order, base, counts, t)
    requires i < |ws| && j < |ws| && counts[j] < counts[i]
    ensures ws[i].memory >= ws[j].memory
  {
    hide Sum;
    assert i in order[..t] && j !in order[..t] && j in order;
    var a :| 0 <= a < t && order[..t][a] == i;
    var b :| 0 <= b < |order| && order[b] == j;
    assert forall c :: 0 <= c < t ==> order[c] == order[..t][c];
  }

  /** An even split leaves no node without layers iff there are as many layers as nodes. */
  lemma {:induction false} EvenAllServe(ws: seq<Capabilities>, counts: seq<nat>, numLayers: nat)
    requires Even(ws, counts, numLayers)
    ensures (forall i :: 0 <= i < |counts| ==> counts[i] > 0) <==> numLayers >= |ws|
  {
    hide Sum;
    Divided(numLayers, |ws|);
    if forall i :: 0 <= i < |counts| ==> counts[i] > 0 {
      SumConst(|ws|, 1);
      SumMonotone(seq(|ws|, _ => 1), counts);
    }
    if numLayers >= |ws| {
      assert numLayers / |ws| >= 1;
    }
  }

  method EqualCounts(ws: seq<Capabilities>, numLayers: nat) returns (counts: seq<nat>)
    requires ws != []
    ensures Even(ws, counts, numLayers)
  {
    hide Even, MemoryOrder, Handed;
    var base, remainder := numLayers / |ws|, numLayers % |ws|;
    var order := SortByMemory(ws);
    counts := seq(|ws|, _ => base);
    OrderLength(ws, order);
    HandedNone(ws, order, base);
    for t := 0 to remainder
      invariant |counts| == |ws| && Handed(ws, order, base, counts, t)
    {
      HandOne(ws, order, base, counts, t);
      counts := counts[order[t] := counts[order[t]] + 1];
    }
    HandedIsEven(ws, order, counts, numLayers);
  }

  lemma {:induction false} OrderLength(ws: seq<Capabilities>, order: seq<nat>)
    requires MemoryOrder(ws, order)
    ensures |order| == |ws|
  {
  }

  lemma {:induction false} HandedNone(ws: seq<Capabilities>, order: seq<nat>, base: nat)
    ensures Handed(ws, order, base, seq(|ws|, _ => base), 0)
  {
    SumConst(|ws|, base);
  }

  // ----- Manual -----

  datatype ManualAssignment = ManualAssignment(nodeId: NodeId, start: nat, end: nat)

  function RangeLen(a: ManualAssignment): nat {
    if a.start < a.end then a.end - a.start else 0
  }

  function RangeLens(parts: seq<ManualAssignment>): (lens: seq<nat>)
    ensures |lens| == |parts|
  {
    seq(|parts|, i requires 0 <= i < |parts| => RangeLen(parts[i]))
  }

  predicate InRange(a: ManualAssignment, l: int) {
    a.start <= l < a.end
  }

  /** Layer l is in one of the first n ranges. */
  ghost predicate InSome(parts: seq<ManualAssignment>, n: nat, l: int) {
    exists i :: 0 <= i < n <= |parts| && InRange(parts[i], l)
  }

  /** Ranges within the model, no layer in two of them, every layer in one. */
  ghost predicate Covers(parts: seq<ManualAssignment>, numLayers: nat) {
    (forall i :: 0 <= i < |parts| ==> parts[i].end <= numLayers) &&
    (forall i, j, l :: 0 <= i < j < |parts| && InRange(parts[i], l) ==> !InRange(parts[j], l)) &&
    (forall l :: 0 <= l < numLayers ==> InSome(parts, |parts|, l))
  }

  function CountTrue(s: seq<bool>): nat {
    if s == [] then 0 else CountTrue(s[..|s| - 1]) + if s[|s| - 1] then 1 else 0
  }

  lemma {:induction false} CountSet(s: seq<bool>, i: nat)
    requires i < |s| && !s[i]
    ensures CountTrue(s[i := true]) == CountTrue(s) + 1
  {
    var t := s[..|s| - 1];
    if i == |s| - 1 {
      assert s[i := true][..|s| - 1] == t;
    } else {
      CountSet(t, i);
      assert s[i := true][..|s| - 1] == t[i := true];
    }
  }

  lemma {:induction false} CountFull(s: seq<bool>)
    ensures CountTrue(s) <= |s|
    ensures CountTrue(s) == |s| <==> forall i :: 0 <= i < |s| ==> s[i]
  {
    if s != [] { CountFull(s[..|s| - 1]); }
  }

  lemma {:induction false} CountNone(n: nat)
    ensures CountTrue(seq(n, _ => false)) == 0
  {
    if n > 0 {
      CountNone(n - 1);
      assert seq(n, _ => false)[..n - 1] == seq(n - 1, _ => false);
    }
  }

  /** The bitmap marks exactly the layers of the first n ranges, and no layer was met twice. */
  ghost predicate Marked(parts: seq<ManualAssignment>, n: nat, covered: seq<bool>) {
    n <= |parts| &&
    (forall i :: 0 <= i < n ==> parts[i].end <= |covered|) &&
    (forall l :: 0 <= l < |covered| ==> (covered[l] <==> InSome(parts, n, l))) &&
    (forall i, j, l :: 0 <= i < j < n && InRange(parts[i], l) ==> !InRange(parts[j], l)) &&
    CountTrue(covered) == Sum(RangeLens(parts)[..n])
  }

  /** Mark the layers of one range; `clash` when one is already marked. */
  method MarkRange(covered: seq<bool>, a: ManualAssignment) returns (clash: bool, covered': seq<bool>)
    requires a.end <= |covered|
    ensures clash <==> exists l :: InRange(a, l) && covered[l]
    ensures !clash ==> |covered'| == |covered| && CountTrue(covered') == CountTrue(covered) + RangeLen(a)
    ensures !clash ==> forall l :: 0 <= l < |covered| ==> covered'[l] == (covered[l] || InRange(a, l))
  {
    hide CountTrue;
    covered' := covered;
    var l := a.start;
    while l < a.end
      invariant a.start <= l && (a.start < a.end ==> l <= a.end) && (a.start >= a.end ==> l == a.start)
      invariant |covered'| == |covered| && CountTrue(covered') == CountTrue(covered) + (l - a.start)
      invariant forall k :: 0 <= k < |covered| ==> covered'[k] == (covered[k] || a.start <= k < l)
      invariant forall k :: a.start <= k < l ==> !covered[k]
    {
      if covered'[l] {
        assert InRange(a, l);
        return true, covered';
      }
      CountSet(covered', l);
      covered' := covered'[l := true];
      l := l + 1;
    }
    clash := false;
  }

  lemma {:induction false} MarkedNext(parts: seq<ManualAssignment>, n: nat, covered: seq<bool>, covered': seq<bool>)
    requires Marked(parts, n, covered) && n < |parts| && parts[n].end <= |covered| == |covered'|
    requires !exists l :: InRange(parts[n], l) && covered[l]
    requires CountTrue(covered') == CountTrue(covered) + RangeLen(parts[n])
    requires forall l :: 0 <= l < |covered| ==> covered'[l] == (covered[l] || InRange(parts[n], l))
    ensures Marked(parts, n + 1, covered')
  {
    hide CountTrue, Sum;
    SumNext(RangeLens(parts), n);
    forall l | 0 <= l < |covered|
      ensures covered'[l] <==> InSome(parts, n + 1, l)
    {
      if InRange(parts[n], l) {
        assert InSome(parts, n + 1, l);
      } else {
        assert InSome(parts, n + 1, l) <==> InSome(parts, n, l);
      }
    }
  }

  /** The coverage bitmap: it accepts exactly the lists that cover the layers, and then the lengths add up. */
  method CheckCoverage(parts: seq<ManualAssignment>, numLayers: nat) returns (ok: bool)
    ensures ok <==> Covers(parts, numLayers)
    ensures ok ==> Sum(RangeLens(parts)) == numLayers
  {
    hide Marked, CountTrue, Sum;
    var covered := seq(numLayers, _ => false);
    MarkedNone(parts, numLayers);
    for n := 0 to |parts|
      invariant |covered| == numLayers && Marked(parts, n, covered)
    {
      if parts[n].end > numLayers { return false; }
      var clash, next := MarkRange(covered, parts[n]);
      if clash {
        MarkedClash(parts, n, covered);
        return false;
      }
      MarkedNext(parts, n, covered, next);
      covered := next;
    }
    ok := true;
    for l := 0 to numLayers
      invariant ok <==> forall k :: 0 <= k < l ==> covered[k]
    {
      if !covered[l] { ok := false; }
    }
    MarkedAll(parts, covered);
  }

  lemma {:induction false} MarkedNone(parts: seq<ManualAssignment>, n: nat)
    ensures Marked(parts, 0, seq(n, _ => false))
  {
    CountNone(n);
    NoSum(RangeLens(parts));
  }

  lemma {:induction false} MarkedClash(parts: seq<ManualAssignment>, n: nat, covered: seq<bool>)
    requires Marked(parts, n, covered) && n < |parts| && parts[n].end <= |covered|
    requires exists l :: InRange(parts[n], l) && covered[l]
    ensures !Covers(parts, |covered|)
  {
    hide CountTrue, Sum;
    var l :| InRange(parts[n], l) && covered[l];
    var i :| 0 <= i < n && InRange(parts[i], l);
  }

  lemma {:induction false} MarkedAll(parts: seq<ManualAssignment>, covered: seq<bool>)
    requires Marked(parts, |parts|, covered)
    ensures (forall l :: 0 <= l < |covered| ==> covered[l]) <==> Covers(parts, |covered|)
    ensures Covers(parts, |covered|) ==> Sum(RangeLens(parts)) == |covered|
  {
    hide CountTrue, Sum;
    CountFull(covered);
    assert RangeLens(parts)[..|parts|] == RangeLens(parts);
    forall l | 0 <= l < |covered|
      ensures covered[l] <==> InSome(parts, |parts|, l)
    {
    }
  }

  function FindNode(ws: seq<Capabilities>, id: NodeId): (r: Option<Capabilities>)
    ensures r.Some? ==> r.value in ws && r.value.nodeId == id
    ensures r.None? ==> forall i :: 0 <= i < |ws| ==> ws[i].nodeId != id
  {
    if ws == [] then None else if ws[0].nodeId == id then Some(ws[0]) else FindNode(ws[1..], id)
  }

  ghost predicate DistinctNames(parts: seq<ManualAssignment>) {
    forall i, j :: 0 <= i < j < |parts| ==> parts[i].nodeId != parts[j].nodeId
  }

  /** Assignment i names a node that has room for its range in place i. */
  ghost predicate RoomFor(ws: seq<Capabilities>, parts: seq<ManualAssignment>, i: nat, perLayer: nat, c: ModelConfig) {
    i < |parts| &&
    var w := FindNode(ws, parts[i].nodeId);
    w.Some? && RangeLen(parts[i]) <= MaxLayers(w.value.memory, perLayer, RoleOverhead(c, i, |parts|))
  }

  ghost predicate Grantable(ws: seq<Capabilities>, parts: seq<ManualAssignment>, perLayer: nat, c: ModelConfig) {
    DistinctNames(parts) && Covers(parts, c.numLayers) &&
    forall i :: 0 <= i < |parts| ==> RoomFor(ws, parts, i, perLayer, c)
  }

  method CheckNames(parts: seq<ManualAssignment>) returns (ok: bool)
    ensures ok <==> DistinctNames(parts)
  {
    var seen: set<NodeId> := {};
    for i := 0 to |parts|
      invariant forall id :: id in seen <==> exists j :: 0 <= j < i && parts[j].nodeId == id
      invariant DistinctNames(parts[..i])
    {
      if parts[i].nodeId in seen { return false; }
      seen := seen + {parts[i].nodeId};
    }
    assert parts[..|parts|] == parts;
    ok := true;
  }

  /** The nodes the assignments name, in the order of the list, if each has room. */
  method PickNodes(ws: seq<Capabilities>, parts: seq<ManualAssignment>, perLayer: nat, c: ModelConfig)
    returns (r: Result<seq<Capabilities>>)
    ensures r.Ok? <==> forall i :: 0 <= i < |parts| ==> RoomFor(ws, parts, i, perLayer, c)
    ensures r.Err? ==> r.error == Pipeline
    ensures r.Ok? ==>
      |r.value| == |parts| && AtMost(RangeLens(parts), Ceilings(r.value, perLayer, c)) &&
      forall i :: 0 <= i < |parts| ==> r.value[i].nodeId == parts[i].nodeId && r.value[i] in ws
  {
    hide MaxLayers, RoleOverhead;
    var picked: seq<Capabilities> := [];
    for i := 0 to |parts|
      invariant |picked| == i
      invariant forall j :: 0 <= j < i ==>
        RoomFor(ws, parts, j, perLayer, c) && picked[j].nodeId == parts[j].nodeId && picked[j] in ws &&
        RangeLen(parts[j]) <= MaxLayers(picked[j].memory, perLayer, RoleOverhead(c, j, |parts|))
    {
      var w := FindNode(ws, parts[i].nodeId);
      if w.None? || RangeLen(parts[i]) > MaxLayers(w.value.memory, perLayer, RoleOverhead(c, i, |parts|)) {
        assert !RoomFor(ws, parts, i, perLayer, c);
        return Err(Pipeline);
      }
      picked := picked + [w.value];
    }
    r := Ok(picked);
  }

  /** What a schedule promises: consecutive ranges over all layers, on nodes that have the memory. */
  ghost predicate Sound(ws: seq<Capabilities>, r: Schedule, perLayer: nat, c: ModelConfig) {
    Consecutive(r.assignments, c.numLayers) && Fits(ws, r.assignments, perLayer, c)
  }

  /** `schedule_manual`: accepts exactly the grantable lists; node i gets as many layers as asked for. */
  method ScheduleManual(c: ModelConfig, ws: seq<Capabilities>, parts: seq<ManualAssignment>, perLayer: nat, hopMs: real)
    returns (r: Result<Schedule>, ghost nodes: seq<Capabilities>)
    requires c.numLayers > 0 || parts != []
    ensures r.Ok? <==> Grantable(ws, parts, perLayer, c)
    ensures r.Err? ==> r.error == Pipeline
    ensures r.Ok? ==>
      Sound(nodes, r.value, perLayer, c) && Laid(nodes, RangeLens(parts), r.value.assignments) && |nodes| == |parts| &&
      forall i :: 0 <= i < |parts| ==> nodes[i].nodeId == parts[i].nodeId && nodes[i] in ws
    ensures r.Ok? ==> exists i :: BottleneckAt(r.value, hopMs, i)
  {
    hide Sum, Covers, Ceilings, MaxLayers, RoleOverhead, Laid, Consecutive, Fits, AtMost, BottleneckAt;
    nodes := [];
    var distinct := CheckNames(parts);
    if !distinct { r := Err(Pipeline); return; }
    var covered := CheckCoverage(parts, c.numLayers);
    if !covered { r := Err(Pipeline); return; }
    var picked := PickNodes(ws, parts, perLayer, c);
    if picked.Err? { r := Err(picked.error); return; }
    if c.numLayers > 0 { CoversSome(parts, c.numLayers); }
    var s := BuildResult(picked.value, RangeLens(parts), [], hopMs);
    LaidIsSound(picked.value, RangeLens(parts), s.assignments, perLayer, c);
    nodes := picked.value;
    r := Ok(s);
  }

  lemma {:induction false} CoversSome(parts: seq<ManualAssignment>, numLayers: nat)
    requires Covers(parts, numLayers) && numLayers > 0
    ensures parts != []
  {
    assert InSome(parts, |parts|, 0);
  }

  // ----- what Manual mode gives against what was asked -----

  ghost predicate AsAsked(parts: seq<ManualAssignment>, got: seq<Assignment>) {
    |got| == |parts| && forall i :: 0 <= i < |parts| ==> got[i].start == parts[i].start && got[i].end == parts[i].end
  }

  ghost predicate NoneEmpty(parts: seq<ManualAssignment>) {
    forall i :: 0 <= i < |parts| ==> parts[i].start < parts[i].end
  }

  ghost predicate ListedAscending(parts: seq<ManualAssignment>) {
    forall i, j :: 0 <= i < j < |parts| ==> parts[i].start < parts[j].start
  }

  /** Ascending, non-empty ranges that cover the layers start where the ones before them end. */
  lemma {:induction false} AscendingStarts(parts: seq<ManualAssignment>, numLayers: nat, i: nat)
    requires Covers(parts, numLayers) && NoneEmpty(parts) && ListedAscending(parts) && i < |parts|
    ensures parts[i].start == Sum(RangeLens(parts)[..i]) && parts[i].end == Sum(RangeLens(parts)[..i + 1])
    ensures forall k :: 0 <= k <= i ==> parts[k].end <= parts[i].end
    decreases i
  {
    hide Sum;
    var lens := RangeLens(parts);
    SumNext(lens, i);
    assert InRange(parts[i], parts[i].start);
    if i == 0 {
      NoSum(lens);
      assert InSome(parts, |parts|, 0);
    } else {
      AscendingStarts(parts, numLayers, i - 1);
      var p := parts[i - 1].end;
      assert !InRange(parts[i - 1], parts[i].start);
      assert InSome(parts, |parts|, p);
      var k :| 0 <= k < |parts| && InRange(parts[k], p);
    }
  }

  /**
   Manual mode hands out the lengths in the order of the list.  For ranges that are not empty
   the nodes get the ranges they were asked for iff these are listed in ascending order.
   */
  lemma {:induction false} ManualAsAsked(ws: seq<Capabilities>, parts: seq<ManualAssignment>, numLayers: nat,
                                         got: seq<Assignment>)
    requires Covers(parts, numLayers) && NoneEmpty(parts) && |ws| == |parts| && Laid(ws, RangeLens(parts), got)
    ensures AsAsked(parts, got) <==> ListedAscending(parts)
  {
    hide Sum, NodeTime, Covers;
    var lens := RangeLens(parts);
    forall i | 0 <= i < |parts|
      ensures got[i].start == Sum(lens[..i]) && got[i].end == got[i].start + lens[i]
    {
      assert LaidAt(ws, lens, got[i], i);
    }
    if ListedAscending(parts) {
      forall i | 0 <= i < |parts|
        ensures got[i].start == parts[i].start && got[i].end == parts[i].end
      {
        AscendingStarts(parts, numLayers, i);
        SumNext(lens, i);
      }
    }
    if AsAsked(parts, got) {
      forall i, j | 0 <= i < j < |parts|
        ensures parts[i].start < parts[j].start
      {
        SumNext(lens, i);
        assert lens[..j][..i + 1] == lens[..i + 1];
        SumPrefix(lens[..j], i + 1);
      }
    }
  }

  /** Every range starts where the one before it ends, the first at layer 0. */
  ghost predicate ListedConsecutively(parts: seq<ManualAssignment>) {
    (forall i :: 0 <= i < |parts| ==> parts[i].start <= parts[i].end) && (parts != [] ==> parts[0].start == 0) &&
    forall i, j :: 0 <= i && j == i + 1 && j < |parts| ==> parts[j].start == parts[i].end
  }

  lemma {:induction false} ConsecutiveStarts(parts: seq<ManualAssignment>, i: nat)
    requires ListedConsecutively(parts) && i < |parts|
    ensures parts[i].start == Sum(RangeLens(parts)[..i])
    decreases i
  {
    hide Sum;
    if i == 0 {
      NoSum(RangeLens(parts));
    } else {
      ConsecutiveStarts(parts, i - 1);
      SumNext(RangeLens(parts), i - 1);
    }
  }

  /** For any list, empty ranges included: the nodes get what was asked iff it is listed consecutively. */
  lemma {:induction false} ManualIffConsecutive(ws: seq<Capabilities>, parts: seq<ManualAssignment>,
                                                got: seq<Assignment>)
    requires |ws| == |parts| && Laid(ws, RangeLens(parts), got)
    ensures AsAsked(parts, got) <==> ListedConsecutively(parts)
  {
    hide Sum, NodeTime;
    var lens := RangeLens(parts);
    forall i | 0 <= i < |parts|
      ensures got[i].start == Sum(lens[..i]) && got[i].end == got[i].start + lens[i]
    {
      assert LaidAt(ws, lens, got[i], i);
    }
    if ListedConsecutively(parts) {
      forall i | 0 <= i < |parts|
        ensures got[i].start == parts[i].start && got[i].end == parts[i].end
      {
        ConsecutiveStarts(parts, i);
      }
    }
    if AsAsked(parts, got) {
      NoSum(lens);
      forall i, j | 0 <= i && j == i + 1 && j < |parts|
        ensures parts[j].start == parts[i].end
      {
        SumNext(lens, i);
      }
    }
  }

  /** Two nodes asked for in descending order get each other's layers. */
  lemma {:induction false} ManualSwapped(ws: seq<Capabilities>, got: seq<Assignment>)
    requires |ws| == 2 && Laid(ws, RangeLens([ManualAssignment("a", 1, 2), ManualAssignment("b", 0, 1)]), got)
    ensures Covers([ManualAssignment("a", 1, 2), ManualAssignment("b", 0, 1)], 2)
    ensures (got[0].start, got[0].end) == (0, 1) && (got[1].start, got[1].end) == (1, 2)
  {
    var parts := [ManualAssignment("a", 1, 2), ManualAssignment("b", 0, 1)];
    assert InRange(parts[0], 1) && InRange(parts[1], 0);
    assert LaidAt(ws, RangeLens(parts), got[0], 0) && LaidAt(ws, RangeLens(parts), got[1], 1);
    SumNext(RangeLens(parts), 0);
  }

  // ----- Auto: estimates -----

  function TotalSpeed(ws: seq<Capabilities>): (t: real)
    requires AllPlausible(ws)
    ensures t >= 0.0 && (ws != [] ==> t > 0.0)
  {
    if ws == [] then 0.0
    else
      assert Plausible(ws[|ws| - 1]);
      TotalSpeed(ws[..|ws| - 1]) + 1.0 / ws[|ws| - 1].decodeMs
  }

  function Round(x: real): nat
    requires x >= 0.0
  {
    (x + 0.5).Floor
  }

  /** The share of the layers that matches the node's share of the total speed, rounded. */
  function Ideal(ws: seq<Capabilities>, numLayers: nat, i: nat): nat
    requires AllPlausible(ws) && i < |ws|
  {
    assert Plausible(ws[i]);
    Share(1.0 / ws[i].decodeMs, TotalSpeed(ws), numLayers as real);
    Round(1.0 / ws[i].decodeMs / TotalSpeed(ws) * numLayers as real)
  }

  lemma {:induction false} Share(a: real, b: real, c: real)
    requires a > 0.0 && b > 0.0 && c >= 0.0
    ensures a / b * c >= 0.0
  {
    assert a / b > 0.0;
  }

  function Min(a: nat, b: nat): nat { if a < b then a else b }

  /** Speeds add up, and one node alone has the reciprocal of its time per layer. */
  lemma {:induction false} SpeedsAdd(a: seq<Capabilities>, b: seq<Capabilities>)
    requires AllPlausible(a) && AllPlausible(b)
    ensures AllPlausible(a + b) && TotalSpeed(a + b) == TotalSpeed(a) + TotalSpeed(b)
    ensures |b| == 1 ==> TotalSpeed(b) == 1.0 / b[0].decodeMs
  {
    if b == [] {
      assert a + b == a;
    } else {
      var n := |b| - 1;
      assert Plausible(b[n]);
      SpeedsAdd(a, b[..n]);
      assert (a + b)[..|a| + n] == a + b[..n] && (a + b)[|a| + n] == b[n];
      if n == 0 { assert b[..0] == []; }
    }
  }

  /** The ideal count is the whole number nearest to the node's part, by speed, of the layers. */
  lemma {:induction false} IdealIsNearest(ws: seq<Capabilities>, numLayers: nat, i: nat)
    requires AllPlausible(ws) && i < |ws|
    ensures ws[i].decodeMs > 0.0 && TotalSpeed(ws) > 0.0
    ensures var part := 1.0 / ws[i].decodeMs / TotalSpeed(ws) * numLayers as real;
            part - 0.5 < Ideal(ws, numLayers, i) as real <= part + 0.5
  {
    assert Plausible(ws[i]);
  }

  /** The time estimated for node i. */
  function EstimatedTime(ws: seq<Capabilities>, c: ModelConfig, perLayer: nat, i: nat): real
    requires AllPlausible(ws) && i < |ws|
  {
    Min(Min(Ideal(ws, c.numLayers, i), MaxLayers(ws[i].memory, perLayer, RoleOverhead(c, i, |ws|))),
        c.numLayers) as real * ws[i].decodeMs
  }

  function LargestTime(ws: seq<Capabilities>, c: ModelConfig, perLayer: nat, n: nat): real
    requires AllPlausible(ws) && n <= |ws|
  {
    if n == 0 then 0.0
    else
      var rest, t := LargestTime(ws, c, perLayer, n - 1), EstimatedTime(ws, c, perLayer, n - 1);
      if rest < t then t else rest
  }

  function Latency(ws: seq<Capabilities>, c: ModelConfig, perLayer: nat, hopMs: real): real
    requires AllPlausible(ws)
  {
    LargestTime(ws, c, perLayer, |ws|) + Hops(|ws|) * hopMs
  }

  lemma {:induction false} LargestOf(ws: seq<Capabilities>, c: ModelConfig, perLayer: nat, n: nat)
    requires AllPlausible(ws) && n <= |ws|
    ensures forall i :: 0 <= i < n ==> EstimatedTime(ws, c, perLayer, i) <= LargestTime(ws, c, perLayer, n)
    ensures n > 0 ==>
      exists i :: 0 <= i < n && EstimatedTime(ws, c, perLayer, i) == LargestTime(ws, c, perLayer, n)
    ensures n == 0 ==> LargestTime(ws, c, perLayer, n) == 0.0
  {
    hide EstimatedTime;
    if n > 0 {
      LargestOf(ws, c, perLayer, n - 1);
      SomeTime(ws, c, perLayer, n - 1);
      if EstimatedTime(ws, c, perLayer, n - 1) == LargestTime(ws, c, perLayer, n) {
      } else {
        var i :| 0 <= i < n - 1 && EstimatedTime(ws, c, perLayer, i) == LargestTime(ws, c, perLayer, n - 1);
      }
    }
  }

  lemma {:induction false} SomeTime(ws: seq<Capabilities>, c: ModelConfig, perLayer: nat, i: nat)
    requires AllPlausible(ws) && i < |ws|
    ensures EstimatedTime(ws, c, perLayer, i) >= 0.0
  {
    hide Ideal, MaxLayers, RoleOverhead;
    assert Plausible(ws[i]);
  }

  /** The estimate is the time of the slowest node and one hop between each two neighbours. */
  method EstimateLatency(ws: seq<Capabilities>, c: ModelConfig, perLayer: nat, hopMs: real) returns (ms: real)
    requires AllPlausible(ws)
    ensures ms == Latency(ws, c, perLayer, hopMs)
    ensures forall i :: 0 <= i < |ws| ==> EstimatedTime(ws, c, perLayer, i) + Hops(|ws|) * hopMs <= ms
    ensures ws != [] ==>
      exists i :: 0 <= i < |ws| && EstimatedTime(ws, c, perLayer, i) + Hops(|ws|) * hopMs == ms
    ensures ws == [] ==> ms == 0.0
  {
    hide EstimatedTime;
    LargestOf(ws, c, perLayer, |ws|);
    var largest := 0.0;
    for i := 0 to |ws|
      invariant largest == LargestTime(ws, c, perLayer, i)
    {
      var t := EstimatedTime(ws, c, perLayer, i);
      if largest < t { largest := t; }
    }
    ms := largest + Hops(|ws|) * hopMs;
  }

  /** Memory left for layers on each node. */
  function Rooms(ws: seq<Capabilities>, c: ModelConfig): (rs: seq<nat>)
    ensures |rs| == |ws|
  {
    seq(|ws|, i requires 0 <= i < |ws| => SaturatingSub(ws[i].memory, RoleOverhead(c, i, |ws|)))
  }

  /** `model_fits`: the memory of all nodes together would do. */
  predicate ModelFits(ws: seq<Capabilities>, c: ModelConfig, perLayer: nat) {
    Sum(Rooms(ws, c)) >= c.numLayers * perLayer
  }

  // ----- the memory test against the exact capacity -----

  lemma {:induction false} CeilingOf(room: nat, perLayer: nat)
    requires perLayer > 0
    ensures room / perLayer * perLayer <= room < room / perLayer * perLayer + perLayer
  {
  }

  /** Sum of ceilings times the layer size, against the sum of the rooms. */
  lemma {:induction false} RoomsAndCeilings(rooms: seq<nat>, ceilings: seq<nat>, perLayer: nat)
    requires |rooms| == |ceilings| && perLayer > 0
    requires forall i :: 0 <= i < |rooms| ==> ceilings[i] == rooms[i] / perLayer
    ensures Sum(ceilings) * perLayer <= Sum(rooms) <= Sum(ceilings) * perLayer + |rooms| * (perLayer - 1)
  {
    if rooms != [] {
      var n := |rooms| - 1;
      RoomsAndCeilings(rooms[..n], ceilings[..n], perLayer);
      CeilingOf(rooms[n], perLayer);
      RoomStep(Sum(ceilings[..n]), ceilings[n], Sum(rooms[..n]), rooms[n], n, perLayer);
    }
  }

  lemma {:induction false} RoomStep(fits: nat, c: nat, room: nat, r: nat, n: nat, p: nat)
    requires p > 0 && fits * p <= room <= fits * p + n * (p - 1) && c * p <= r < c * p + p
    ensures (fits + c) * p <= room + r <= (fits + c) * p + (n + 1) * (p - 1)
  {
    assert (fits + c) * p == fits * p + c * p;
    assert (n + 1) * (p - 1) == n * (p - 1) + (p - 1);
  }

  lemma {:induction false} CeilingsAreQuotients(ws: seq<Capabilities>, c: ModelConfig, perLayer: nat)
    requires perLayer > 0
    ensures forall i :: 0 <= i < |ws| ==> Ceilings(ws, perLayer, c)[i] == Rooms(ws, c)[i] / perLayer
  {
  }

  /** If every layer has a place, `model_fits` says so. */
  lemma {:induction false} CapacityFits(ws: seq<Capabilities>, c: ModelConfig, perLayer: nat)
    requires Sum(Ceilings(ws, perLayer, c)) >= c.numLayers
    ensures ModelFits(ws, c, perLayer)
  {
    hide Sum, Ceilings, Rooms;
    if perLayer > 0 {
      CeilingsAreQuotients(ws, c, perLayer);
      RoomsAndCeilings(Rooms(ws, c), Ceilings(ws, perLayer, c), perLayer);
      Products(c.numLayers, Sum(Ceilings(ws, perLayer, c)), perLayer);
    }
  }

  /** If `model_fits` says so, at most one layer per node but the first has no place. */
  lemma {:induction false} FitsAlmost(ws: seq<Capabilities>, c: ModelConfig, perLayer: nat)
    requires ModelFits(ws, c, perLayer) && perLayer > 0 && ws != []
    ensures Sum(Ceilings(ws, perLayer, c)) >= c.numLayers - (|ws| - 1)
  {
    hide Sum, Ceilings, Rooms;
    var have, n := Sum(Ceilings(ws, perLayer, c)), |ws|;
    CeilingsAreQuotients(ws, c, perLayer);
    RoomsAndCeilings(Rooms(ws, c), Ceilings(ws, perLayer, c), perLayer);
    assert (have + n) * perLayer == have * perLayer + n * (perLayer - 1) + n;
    if have < c.numLayers - (n - 1) {
      Products(have + n, c.numLayers, perLayer);
      assert false;
    }
  }

  // ----- Auto: pruning -----

  /** The slowest node, the last of them. */
  function Slowest(ws: seq<Capabilities>): (k: nat)
    requires ws != []
    ensures k < |ws| && forall j :: 0 <= j < |ws| ==> ws[j].decodeMs <= ws[k].decodeMs
    ensures forall j :: k < j < |ws| ==> ws[j].decodeMs < ws[k].decodeMs
  {
    var n := |ws| - 1;
    if n == 0 then 0
    else
      var k := Slowest(ws[..n]);
      assert forall j :: 0 <= j < n ==> ws[..n][j] == ws[j];
      if ws[n].decodeMs >= ws[k].decodeMs then n else k
  }

  /** `max_by` over the timings. */
  method SlowestIndex(ws: seq<Capabilities>) returns (k: nat)
    requires ws != []
    ensures k == Slowest(ws)
  {
    k := 0;
    assert ws[..1] == [ws[0]];
    for i := 1 to |ws|
      invariant k == Slowest(ws[..i])
    {
      assert ws[..i + 1][..i] == ws[..i];
      if ws[i].decodeMs >= ws[k].decodeMs { k := i; }
    }
    assert ws[..|ws|] == ws;
  }

  /** The estimates fall from one exclusion to the next, and each continues where the last ended. */
  ghost predicate Falling(excluded: seq<Exclusion>, from: real, to: real) {
    (forall i :: 0 <= i < |excluded| ==> excluded[i].withoutMs < excluded[i].withMs) &&
    (forall i, j :: 0 <= i && j == i + 1 && j < |excluded| ==> excluded[j].withMs == excluded[i].withoutMs) &&
    (if excluded == [] then from == to else excluded[0].withMs == from && excluded[|excluded| - 1].withoutMs == to)
  }

  /** No node kept is slower than a node removed. */
  ghost predicate NoSlower(kept: seq<Capabilities>, removed: seq<Capabilities>) {
    forall i, j :: 0 <= i < |kept| && 0 <= j < |removed| ==> kept[i].decodeMs <= removed[j].decodeMs
  }

  ghost predicate Names(removed: seq<Capabilities>, excluded: seq<Exclusion>) {
    |removed| == |excluded| && forall i :: 0 <= i < |removed| ==> excluded[i].nodeId == removed[i].nodeId
  }

  ghost predicate DistinctCaps(ws: seq<Capabilities>) {
    forall i, j :: 0 <= i < j < |ws| ==> ws[i].nodeId != ws[j].nodeId
  }

  function Without(ws: seq<Capabilities>, k: nat): seq<Capabilities>
    requires k < |ws|
  {
    ws[..k] + ws[k + 1..]
  }

  lemma {:induction false} WithoutOne(ws: seq<Capabilities>, k: nat)
    requires k < |ws|
    ensures multiset(ws) == multiset(Without(ws, k)) + multiset{ws[k]}
    ensures AllPlausible(ws) ==> AllPlausible(Without(ws, k))
    ensures DistinctCaps(ws) ==> DistinctCaps(Without(ws, k))
  {
    assert ws == ws[..k] + [ws[k]] + ws[k + 1..];
    if AllPlausible(ws) {
      forall i | 0 <= i < |ws| - 1
        ensures Plausible(Without(ws, k)[i])
      {
        assert Without(ws, k)[i] == ws[if i < k then i else i + 1];
      }
    }
  }

  lemma {:induction false} NoSlowerNext(kept: seq<Capabilities>, removed: seq<Capabilities>, k: nat)
    requires NoSlower(kept, removed) && k < |kept| &&
             forall j :: 0 <= j < |kept| ==> kept[j].decodeMs <= kept[k].decodeMs
    ensures NoSlower(Without(kept, k), removed + [kept[k]])
  {
    forall i, j | 0 <= i < |kept| - 1 && 0 <= j < |removed| + 1
      ensures Without(kept, k)[i].decodeMs <= (removed + [kept[k]])[j].decodeMs
    {
      assert Without(kept, k)[i] == kept[if i < k then i else i + 1];
    }
  }

  lemma {:induction false} FallingNext(excluded: seq<Exclusion>, from: real, mid: real, e: Exclusion)
    requires Falling(excluded, from, mid) && e.withMs == mid && e.withoutMs < mid
    ensures Falling(excluded + [e], from, e.withoutMs)
  {
    var all := excluded + [e];
    forall i, j | 0 <= i && j == i + 1 && j < |all|
      ensures all[j].withMs == all[i].withoutMs
    {
      if j < |excluded| { assert all[i] == excluded[i] && all[j] == excluded[j]; }
    }
  }

  /** The test of the pruning loop: the slowest node goes if the rest has the memory and is faster without it. */
  predicate DropsOne(ws: seq<Capabilities>, c: ModelConfig, perLayer: nat, hopMs: real)
    requires AllPlausible(ws)
  {
    |ws| > 1 &&
    var without := Without(ws, Slowest(ws));
    WithoutOne(ws, Slowest(ws));
    ModelFits(without, c, perLayer) && Latency(without, c, perLayer, hopMs) < Latency(ws, c, perLayer, hopMs)
  }

  /** The nodes that pruning leaves. */
  function Pruned(ws: seq<Capabilities>, c: ModelConfig, perLayer: nat, hopMs: real): seq<Capabilities>
    requires AllPlausible(ws)
    decreases |ws|
  {
    if DropsOne(ws, c, perLayer, hopMs) then
      WithoutOne(ws, Slowest(ws));
      Pruned(Without(ws, Slowest(ws)), c, perLayer, hopMs)
    else ws
  }

  /**
   The pruning loop keeps exactly `Pruned`.  It keeps at least one node, splits the candidates into those kept and
   those excluded, none kept being slower than one excluded; the recorded latencies are a
   falling chain from the estimate for all candidates to that for those kept.
   */
  method Prune(ws: seq<Capabilities>, c: ModelConfig, perLayer: nat, hopMs: real)
    returns (kept: seq<Capabilities>, excluded: seq<Exclusion>, ghost removed: seq<Capabilities>)
    requires ws != [] && AllPlausible(ws)
    ensures kept == Pruned(ws, c, perLayer, hopMs)
    ensures kept != [] && AllPlausible(kept) && multiset(kept) + multiset(removed) == multiset(ws)
    ensures Names(removed, excluded) && NoSlower(kept, removed)
    ensures Falling(excluded, Latency(ws, c, perLayer, hopMs), Latency(kept, c, perLayer, hopMs))
    ensures excluded != [] ==> ModelFits(kept, c, perLayer)
    ensures excluded == [] ==> kept == ws
    ensures DistinctCaps(ws) ==> DistinctCaps(kept)
  {
    hide Latency, ModelFits, Falling, NoSlower, AllPlausible, Without, DistinctCaps, Slowest;
    kept, excluded, removed := ws, [], [];
    StartOfPrune(ws, Latency(ws, c, perLayer, hopMs));
    while |kept| > 1
      invariant kept != [] && AllPlausible(kept) && multiset(kept) + multiset(removed) == multiset(ws)
      invariant Pruned(kept, c, perLayer, hopMs) == Pruned(ws, c, perLayer, hopMs)
      invariant Names(removed, excluded) && NoSlower(kept, removed)
      invariant Falling(excluded, Latency(ws, c, perLayer, hopMs), Latency(kept, c, perLayer, hopMs))
      invariant excluded != [] ==> ModelFits(kept, c, perLayer)
      invariant excluded == [] ==> kept == ws
      invariant DistinctCaps(ws) ==> DistinctCaps(kept)
      decreases |kept|
    {
      var k := SlowestIndex(kept);
      var withMs := EstimateLatency(kept, c, perLayer, hopMs);
      var without := Without(kept, k);
      WithoutOne(kept, k);
      WithoutLength(kept, k);
      if !ModelFits(without, c, perLayer) { break; }
      var withoutMs := EstimateLatency(without, c, perLayer, hopMs);
      if withoutMs >= withMs { break; }
      var e := Exclusion(kept[k].nodeId, withMs, withoutMs);
      NoSlowerNext(kept, removed, k);
      FallingNext(excluded, Latency(ws, c, perLayer, hopMs), withMs, e);
      assert multiset(removed + [kept[k]]) == multiset(removed) + multiset{kept[k]};
      removed := removed + [kept[k]];
      excluded := excluded + [e];
      kept := without;
    }
  }

  lemma {:induction false} StartOfPrune(ws: seq<Capabilities>, ms: real)
    ensures Falling([], ms, ms) && NoSlower(ws, [])
  {
  }

  lemma {:induction false} WithoutLength(ws: seq<Capabilities>, k: nat)
    requires k < |ws|
    ensures |Without(ws, k)| == |ws| - 1
  {
  }

  // ----- the three modes -----

  datatype Mode = Auto | EqualSplit | Manual(parts: seq<ManualAssignment>)

  datatype SchedulerInput = SchedulerInput(
    config: ModelConfig,
    workers: seq<Capabilities>,
    coordinator: Option<Capabilities>,
    mode: Mode,
    maxSeqLen: nat,
    hopMs: real)

  function PerLayer(c: ModelConfig, maxSeqLen: nat): nat {
    WeightBytes(c) + CacheBytes(c, maxSeqLen)
  }

  function Clamped(ws: seq<Capabilities>, c: ModelConfig, ceilings: seq<nat>): (counts: seq<nat>)
    requires AllPlausible(ws) && |ceilings| == |ws|
    ensures AtMost(counts, ceilings)
  {
    seq(|ws|, i requires 0 <= i < |ws| => Min(Ideal(ws, c.numLayers, i), ceilings[i]))
  }

  /** The layers each of the nodes kept gets. */
  function AutoCounts(nodes: seq<Capabilities>, c: ModelConfig, perLayer: nat): (counts: seq<nat>)
    requires AllPlausible(nodes)
    ensures |counts| == |nodes|
  {
    var ceilings := Ceilings(nodes, perLayer, c);
    Balanced(nodes, Clamped(nodes, c, ceilings), ceilings, c.numLayers)
  }

  /** `schedule_auto` succeeds iff the nodes that pruning leaves have a place for every layer. */
  method ScheduleAuto(c: ModelConfig, ws: seq<Capabilities>, perLayer: nat, hopMs: real)
    returns (r: Result<Schedule>, ghost nodes: seq<Capabilities>, ghost removed: seq<Capabilities>)
    requires ws != [] && AllPlausible(ws)
    ensures nodes == Pruned(ws, c, perLayer, hopMs)
    ensures nodes != [] && AllPlausible(nodes) && multiset(nodes) + multiset(removed) == multiset(ws) &&
            NoSlower(nodes, removed)
    ensures DistinctCaps(ws) ==> DistinctCaps(nodes)
    ensures r.Ok? <==> Sum(Ceilings(Pruned(ws, c, perLayer, hopMs), perLayer, c)) >= c.numLayers
    ensures r.Err? ==> r.error == Pipeline
    ensures r.Ok? ==> Sound(nodes, r.value, perLayer, c) && Names(removed, r.value.excluded)
    ensures r.Ok? ==> Laid(nodes, AutoCounts(nodes, c, perLayer), r.value.assignments)
    ensures r.Ok? ==> Falling(r.value.excluded, Latency(ws, c, perLayer, hopMs), Latency(nodes, c, perLayer, hopMs))
    ensures r.Ok? ==> exists i :: BottleneckAt(r.value, hopMs, i)
  {
    hide BottleneckAt, Sum, Ceilings, Ideal, Laid, Consecutive, Fits, Latency, ModelFits, Falling, NoSlower,
      AllPlausible, AtMost, AddedGreedily, TakenGreedily, Balanced, Pruned;
    var kept, excluded;
    kept, excluded, removed := Prune(ws, c, perLayer, hopMs);
    nodes := kept;
    var ceilings := Ceilings(kept, perLayer, c);
    var start := Clamped(kept, c, ceilings);
    SameLength(start, ceilings);
    var counts := new nat[|kept|](i requires 0 <= i < |start| => start[i]);
    assert counts[..] == start;
    var done := Redistribute(counts, kept, c.numLayers, ceilings);
    if done.Err? { r := Err(done.error); return; }
    var s := BuildResult(kept, counts[..], excluded, hopMs);
    LaidIsSound(kept, counts[..], s.assignments, perLayer, c);
    r := Ok(s);
  }

  /** `schedule_equal`: succeeds iff every node has room for its even share. */
  method ScheduleEqual(c: ModelConfig, ws: seq<Capabilities>, perLayer: nat, hopMs: real)
    returns (r: Result<Schedule>, ghost counts: seq<nat>)
    requires ws != []
    ensures Even(ws, counts, c.numLayers)
    ensures r.Ok? <==> AtMost(counts, Ceilings(ws, perLayer, c))
    ensures r.Err? ==> r.error == Pipeline
    ensures r.Ok? ==> Sound(ws, r.value, perLayer, c) && Laid(ws, counts, r.value.assignments)
    ensures r.Ok? ==> exists i :: BottleneckAt(r.value, hopMs, i)
  {
    hide BottleneckAt, Sum, Ceilings, Laid, Consecutive, Fits;
    var shares := EqualCounts(ws, c.numLayers);
    counts := shares;
    var ceilings := Ceilings(ws, perLayer, c);
    for i := 0 to |ws|
      invariant forall j :: 0 <= j < i ==> shares[j] <= ceilings[j]
    {
      if shares[i] > ceilings[i] { r := Err(Pipeline); return; }
    }
    var s := BuildResult(ws, shares, [], hopMs);
    LaidIsSound(ws, shares, s.assignments, perLayer, c);
    r := Ok(s);
  }

  /** The candidates: the coordinator's own device first. */
  function Candidates(input: SchedulerInput): seq<Capabilities> {
    (if input.coordinator.Some? then [input.coordinator.value] else []) + input.workers
  }

  /** What `schedule` decides on these candidates: when each mode accepts, and what it then gives. */
  ghost predicate Decides(input: SchedulerInput, r: Result<Schedule>, nodes: seq<Capabilities>) {
    var ws, c, perLayer := Candidates(input), input.config, PerLayer(input.config, input.maxSeqLen);
    if ws == [] || !AllPlausible(ws) then r == Err(Pipeline)
    else
      (r.Err? ==> r.error == Pipeline) && (r.Ok? ==> exists i :: BottleneckAt(r.value, input.hopMs, i)) &&
      match input.mode
      case Auto =>
        nodes == Pruned(ws, c, perLayer, input.hopMs) && AllPlausible(nodes) &&
        (r.Ok? <==> Sum(Ceilings(nodes, perLayer, c)) >= c.numLayers) &&
        (r.Ok? ==> Laid(nodes, AutoCounts(nodes, c, perLayer), r.value.assignments))
      case EqualSplit =>
        nodes == ws &&
        exists counts ::
          Even(ws, counts, c.numLayers) && (r.Ok? <==> AtMost(counts, Ceilings(ws, perLayer, c))) &&
          (r.Ok? ==> Laid(ws, counts, r.value.assignments))
      case Manual(parts) =>
        (r.Ok? <==> Grantable(ws, parts, perLayer, c)) &&
        (r.Ok? ==> Laid(nodes, RangeLens(parts), r.value.assignments))
  }

  /**
   `schedule`.  Whatever the mode, an accepted schedule gives consecutive ranges from layer 0
   that cover every layer once, on candidates that have the memory for them.
   */
  method MakeSchedule(input: SchedulerInput) returns (r: Result<Schedule>, ghost nodes: seq<Capabilities>)
    requires input.config.numLayers > 0 || input.mode != Manual([])
    ensures r.Ok? ==> forall i :: 0 <= i < |Candidates(input)| ==>
      var w := Candidates(input)[i];
      0.0 < w.decodeMs <= 500.0 && 0.0 < w.prefillMs <= 500.0
    ensures r.Ok? ==> Sound(nodes, r.value, PerLayer(input.config, input.maxSeqLen), input.config)
    ensures r.Ok? ==> forall i :: 0 <= i < |nodes| ==> nodes[i] in Candidates(input)
    ensures r.Ok? && DistinctCaps(Candidates(input)) ==> DistinctCaps(nodes)
    ensures r.Ok? && input.mode.EqualSplit? ==>
      nodes == if input.coordinator.Some? then [input.coordinator.value] + input.workers else input.workers
    ensures Decides(input, r, nodes)
  {
    hide BottleneckAt, Sound, Plausible, PerLayer, Candidates, Even, Falling, NoSlower, Latency, Laid, Pruned, Ceilings,
      Sum, AutoCounts, Covers;
    nodes := [];
    var ws := Candidates(input);
    if ws == [] { r := Err(Pipeline); return; }
    for i := 0 to |ws|
      invariant forall j :: 0 <= j < i ==> Plausible(ws[j])
    {
      if !Plausible(ws[i]) { r := Err(Pipeline); return; }
    }
    WithinBounds(ws);
    CoordinatorFirst(input);
    var perLayer := PerLayer(input.config, input.maxSeqLen);
    match input.mode
    case Auto =>
      ghost var removed;
      r, nodes, removed := ScheduleAuto(input.config, ws, perLayer, input.hopMs);
      InOf(nodes, removed, ws);
    case EqualSplit =>
      ghost var counts;
      r, counts := ScheduleEqual(input.config, ws, perLayer, input.hopMs);
      nodes := ws;
    case Manual(parts) =>
      r, nodes := ScheduleManual(input.config, ws, parts, perLayer, input.hopMs);
  }

  lemma {:induction false} CoordinatorFirst(input: SchedulerInput)
    ensures Candidates(input) ==
      if input.coordinator.Some? then [input.coordinator.value] + input.workers else input.workers
  {
    assert [] + input.workers == input.workers;
  }

  /** Candidates are plausible iff all their times are above 0 and at most 500 ms. */
  lemma {:induction false} WithinBounds(ws: seq<Capabilities>)
    ensures AllPlausible(ws) <==>
      forall i :: 0 <= i < |ws| ==> 0.0 < ws[i].decodeMs <= 500.0 && 0.0 < ws[i].prefillMs <= 500.0
  {
    if forall i :: 0 <= i < |ws| ==> 0.0 < ws[i].decodeMs <= 500.0 && 0.0 < ws[i].prefillMs <= 500.0 {
      forall i | 0 <= i < |ws|
        ensures Plausible(ws[i])
      {
      }
    }
    if AllPlausible(ws) {
      assert forall i :: 0 <= i < |ws| ==> Plausible(ws[i]);
    }
  }

  lemma {:induction false} InOf(nodes: seq<Capabilities>, removed: seq<Capabilities>, ws: seq<Capabilities>)
    requires multiset(nodes) + multiset(removed) == multiset(ws)
    ensures forall i :: 0 <= i < |nodes| ==> nodes[i] in ws
  {
    forall i | 0 <= i < |nodes|
      ensures nodes[i] in ws
    {
      assert nodes[i] in multiset(nodes);
      assert nodes[i] in multiset(ws);
    }
  }

  // ----- pruning can go too far -----

  /** What pruning leaves passes the memory test, or nothing was dropped. */
  lemma {:induction false} PrunedFits(ws: seq<Capabilities>, c: ModelConfig, perLayer: nat, hopMs: real)
    requires AllPlausible(ws) && ws != []
    ensures Pruned(ws, c, perLayer, hopMs) != []
    ensures Pruned(ws, c, perLayer, hopMs) == ws || ModelFits(Pruned(ws, c, perLayer, hopMs), c, perLayer)
    decreases |ws|
  {
    hide Latency, ModelFits, Slowest;
    if DropsOne(ws, c, perLayer, hopMs) {
      WithoutOne(ws, Slowest(ws));
      PrunedFits(Without(ws, Slowest(ws)), c, perLayer, hopMs);
    }
  }

  /**
   How far pruning can go: if the candidates have a place for every layer, the nodes left lack a
   place for at most one layer per node but the first.
   */
  lemma {:induction false} PrunedAlmost(ws: seq<Capabilities>, c: ModelConfig, perLayer: nat, hopMs: real)
    requires AllPlausible(ws) && ws != [] && perLayer > 0 && Sum(Ceilings(ws, perLayer, c)) >= c.numLayers
    ensures var nodes := Pruned(ws, c, perLayer, hopMs);
            nodes != [] && Sum(Ceilings(nodes, perLayer, c)) >= c.numLayers - (|nodes| - 1)
  {
    hide Sum, Ceilings, Pruned, ModelFits;
    PrunedFits(ws, c, perLayer, hopMs);
    if Pruned(ws, c, perLayer, hopMs) != ws { FitsAlmost(Pruned(ws, c, perLayer, hopMs), c, perLayer); }
  }

  const SMALL_MODEL := ModelConfig(1, 1, 1, 1, 1, 1)
  const SLOW := Capabilities("slow", 24, 10.0, 1.0)
  const FAST_A := Capabilities("a", 13, 1.0, 1.0)
  const FAST_B := Capabilities("b", 15, 1.0, 1.0)
  const ALL_THREE := [SLOW, FAST_A, FAST_B]
  const BOTH_FAST := [FAST_A, FAST_B]

  lemma {:induction false} SmallSizes()
    ensures PerLayer(SMALL_MODEL, 1) == 22 && HeadBytes(SMALL_MODEL) == 2 && TailBytes(SMALL_MODEL) == 4
    ensures Ceilings(ALL_THREE, 22, SMALL_MODEL) == [1, 0, 0] && Ceilings(BOTH_FAST, 22, SMALL_MODEL) == [0, 0]
    ensures Rooms(BOTH_FAST, SMALL_MODEL) == [11, 11] && Rooms([FAST_A], SMALL_MODEL) == [7]
  {
  }

  /** The slow node goes: the memory test passes without it and the estimate is better without it. */
  lemma {:induction false} SlowGoes()
    ensures AllPlausible(ALL_THREE) && DropsOne(ALL_THREE, SMALL_MODEL, 22, 2.0) &&
            Without(ALL_THREE, Slowest(ALL_THREE)) == BOTH_FAST
  {
    var all, fast, c := ALL_THREE, BOTH_FAST, SMALL_MODEL;
    SmallSizes();
    SumOfTwo(11, 11);
    SpeedOf(all, fast);
    assert Slowest(all) == 0 && Without(all, 0) == fast;
    NoTime(fast, c, 22, 0);
    NoTime(fast, c, 22, 1);
    NoTime(all, c, 22, 1);
    NoTime(all, c, 22, 2);
    SlowIdeal(all);
    assert EstimatedTime(all, c, 22, 0) == 0.0;
    assert LargestTime(fast, c, 22, 0) == LargestTime(all, c, 22, 0) == 0.0;
    assert LargestTime(fast, c, 22, 1) == LargestTime(all, c, 22, 1) == 0.0;
    assert LargestTime(fast, c, 22, 2) == LargestTime(all, c, 22, 2) == 0.0;
    assert LargestTime(all, c, 22, 3) == 0.0;
  }

  /** Neither of the fast nodes goes: one alone has not the memory. */
  lemma {:induction false} FastStay()
    ensures AllPlausible(BOTH_FAST) && !DropsOne(BOTH_FAST, SMALL_MODEL, 22, 2.0)
  {
    SmallSizes();
    assert Plausible(FAST_A) && Plausible(FAST_B);
    assert Slowest(BOTH_FAST) == 1 && Without(BOTH_FAST, 1) == [FAST_A];
    assert [7][..0] == [];
    assert Sum([7]) == Sum([]) + 7;
  }

  /**
   The memory test adds up the memory of all nodes, so it can drop the only node that a layer
   fits on: here the slow node has room for the one layer, and the two nodes that are left
   when pruning ends have none.
   */
  lemma {:induction false} PrunedTooFar()
    ensures PerLayer(SMALL_MODEL, 1) == 22 && AllPlausible(ALL_THREE)
    ensures Sum(Ceilings(ALL_THREE, 22, SMALL_MODEL)) >= SMALL_MODEL.numLayers
    ensures Pruned(ALL_THREE, SMALL_MODEL, 22, 2.0) == BOTH_FAST
    ensures Sum(Ceilings(BOTH_FAST, 22, SMALL_MODEL)) < SMALL_MODEL.numLayers
  {
    SmallSizes();
    SumOfThree(1, 0, 0);
    SumOfTwo(0, 0);
    SlowGoes();
    FastStay();
    assert Pruned(ALL_THREE, SMALL_MODEL, 22, 2.0) == Pruned(BOTH_FAST, SMALL_MODEL, 22, 2.0);
  }

  /** So Auto refuses candidates that have a place for every layer. */
  method AutoRefuses() returns (r: Result<Schedule>)
    ensures r == Err(Pipeline)
  {
    hide Pruned, Ceilings, Sum, PerLayer, Sound;
    PrunedTooFar();
    ghost var nodes, removed;
    r, nodes, removed := ScheduleAuto(SMALL_MODEL, ALL_THREE, PerLayer(SMALL_MODEL, 1), 2.0);
  }

  // ----- the estimate decides -----

  const DEEP_MODEL := ModelConfig(32, 1, 1, 1, 1, 1)
  const EVEN_A := Capabilities("a", 1000, 1.0, 3.0)
  const EVEN_B := Capabilities("b", 1000, 1.0, 0.5)
  const TEN_TIMES := Capabilities("b", 1000, 10.0, 0.5)

  /** What one and two nodes with memory for the whole model are estimated to take. */
  lemma {:induction false} EstimatesOf(b: Capabilities, first: nat, second: nat)
    requires Plausible(b) && b.memory == 1000
    requires var speed := 1.0 + 1.0 / b.decodeMs;
             Round(1.0 / speed * 32.0) == first <= 32 && Round(1.0 / b.decodeMs / speed * 32.0) == second <= 32
    ensures AllPlausible([EVEN_A, b]) && AllPlausible([EVEN_A])
    ensures EstimatedTime([EVEN_A, b], DEEP_MODEL, 22, 0) == first as real
    ensures EstimatedTime([EVEN_A, b], DEEP_MODEL, 22, 1) == second as real * b.decodeMs
    ensures EstimatedTime([EVEN_A], DEEP_MODEL, 22, 0) == 32.0
  {
    hide Round;
    var one, two := [EVEN_A], [EVEN_A, b];
    assert Plausible(EVEN_A);
    assert two == [EVEN_A] + [b] && one == [] + [EVEN_A];
    SpeedsAdd([], one);
    SpeedsAdd(one, [b]);
    assert TotalSpeed(one) == 1.0 && TotalSpeed(two) == 1.0 + 1.0 / b.decodeMs;
    WholeRound(32);
    assert Ideal(one, 32, 0) == 32;
  }

  lemma {:induction false} WholeRound(n: nat)
    ensures Round(n as real) == n
  {
  }

  /** Two equal nodes: 16 layers each and a hop take less than 32 on one, and both are kept. */
  lemma {:induction false} EqualNodesStay()
    ensures AllPlausible([EVEN_A, EVEN_B]) && ModelFits([EVEN_A], DEEP_MODEL, 22)
    ensures Latency([EVEN_A, EVEN_B], DEEP_MODEL, 22, 2.0) == 18.0 && Latency([EVEN_A], DEEP_MODEL, 22, 2.0) == 32.0
    ensures Pruned([EVEN_A, EVEN_B], DEEP_MODEL, 22, 2.0) == [EVEN_A, EVEN_B]
  {
    hide EstimatedTime;
    WholeRound(16);
    EstimatesOf(EVEN_B, 16, 16);
    TwoLatencies(EVEN_B, 2.0);
    assert Slowest([EVEN_A, EVEN_B]) == 1 && Without([EVEN_A, EVEN_B], 1) == [EVEN_A];
    AloneFits();
  }

  /** A node ten times slower and a dear hop: 30 ms for its 3 layers and the hop take more than 32 on one. */
  lemma {:induction false} SlowNodeGoes()
    ensures AllPlausible([EVEN_A, TEN_TIMES])
    ensures Latency([EVEN_A, TEN_TIMES], DEEP_MODEL, 22, 4.0) == 34.0 && Latency([EVEN_A], DEEP_MODEL, 22, 4.0) == 32.0
    ensures Pruned([EVEN_A, TEN_TIMES], DEEP_MODEL, 22, 4.0) == [EVEN_A]
  {
    hide EstimatedTime;
    EstimatesOf(TEN_TIMES, 29, 3);
    TwoLatencies(TEN_TIMES, 4.0);
    assert Slowest([EVEN_A, TEN_TIMES]) == 1 && Without([EVEN_A, TEN_TIMES], 1) == [EVEN_A];
    AloneFits();
  }

  lemma {:induction false} TwoLatencies(b: Capabilities, hopMs: real)
    requires AllPlausible([EVEN_A, b]) && AllPlausible([EVEN_A]) && EstimatedTime([EVEN_A], DEEP_MODEL, 22, 0) == 32.0
    ensures Latency([EVEN_A], DEEP_MODEL, 22, hopMs) == 32.0
    ensures var x, y := EstimatedTime([EVEN_A, b], DEEP_MODEL, 22, 0), EstimatedTime([EVEN_A, b], DEEP_MODEL, 22, 1);
            Latency([EVEN_A, b], DEEP_MODEL, 22, hopMs) == (if x < y then y else x) + hopMs
  {
    hide EstimatedTime;
    LargestOf([EVEN_A], DEEP_MODEL, 22, 1);
    LargestOf([EVEN_A, b], DEEP_MODEL, 22, 2);
  }

  lemma {:induction false} AloneFits()
    ensures ModelFits([EVEN_A], DEEP_MODEL, 22)
  {
    var rooms := Rooms([EVEN_A], DEEP_MODEL);
    assert rooms == [994] && rooms[..0] == [];
    assert Sum(rooms) == Sum(rooms[..0]) + 994;
  }

  const EIGHT_BILLION := ModelConfig(32, 4096, 8, 128, 14336, 128256)

  /** The sizes of a model of eight billion weights, in bytes, with a context of 2048. */
  lemma {:induction false} SizesOfLarge()
    ensures WeightBytes(EIGHT_BILLION) == 436224000 && CacheBytes(EIGHT_BILLION, 2048) == 8388608
    ensures HeadBytes(EIGHT_BILLION) == 1050673152 && TailBytes(EIGHT_BILLION) == 1050681344
    ensures PerLayer(EIGHT_BILLION, 2048) == 444612608
    ensures RoleOverhead(EIGHT_BILLION, 0, 1) == 2101354496 && RoleOverhead(EIGHT_BILLION, 1, 3) == 0
  {
  }

  // ----- Auto can leave a node without layers -----

  const HALF_A := Capabilities("a", 24, 1.0, 1.0)
  const HALF_B := Capabilities("b", 26, 1.0, 1.0)
  const TWO_HALVES := [HALF_A, HALF_B]

  lemma {:induction false} HalvesIdeal()
    ensures AllPlausible(TWO_HALVES) && Ideal(TWO_HALVES, 1, 0) == 1 && Ideal(TWO_HALVES, 1, 1) == 1
  {
    var ws := TWO_HALVES;
    assert Plausible(HALF_A) && Plausible(HALF_B);
    assert ws[..1] == [HALF_A] && [HALF_A][..0] == [];
    assert TotalSpeed([HALF_A]) == TotalSpeed([]) + 1.0;
    assert TotalSpeed(ws) == 2.0;
    assert 1.0 / HALF_A.decodeMs / 2.0 * 1.0 == 0.5;
  }

  // ----- when Auto leaves a node without layers -----

  /** Layers are taken from node a before node b: it is slower, or as slow and earlier in the list. */
  ghost predicate DrainsFirst(ws: seq<Capabilities>, a: nat, b: nat)
    requires a < |ws| && b < |ws|
  {
    ws[a].decodeMs > ws[b].decodeMs || (ws[a].decodeMs == ws[b].decodeMs && a < b)
  }

  lemma {:induction false} SlowestFirst(ws: seq<Capabilities>, counts: seq<nat>, n: nat)
    requires n <= |ws| == |counts|
    ensures var worst := SlowestBusy(ws, counts, n);
            if worst.None? then forall j :: 0 <= j < n ==> counts[j] == 0
            else forall j :: 0 <= j < n && DrainsFirst(ws, j, worst.value) ==> counts[j] == 0
  {
    if n > 0 { SlowestFirst(ws, counts, n - 1); }
  }

  lemma {:induction false} FastestFirst(ws: seq<Capabilities>, counts: seq<nat>, ceilings: seq<nat>, n: nat)
    requires n <= |ws| == |counts| == |ceilings|
    ensures var best := FastestFree(ws, counts, ceilings, n);
            if best.None? then forall j :: 0 <= j < n ==> counts[j] >= ceilings[j]
            else forall j :: 0 <= j < n && Before(ws, j, best.value) ==> counts[j] >= ceilings[j]
  {
    if n > 0 { FastestFirst(ws, counts, ceilings, n - 1); }
  }

  /** Draining takes the layers that are too many, from no node while one before it has any. */
  lemma {:induction false} DrainedInTurn(ws: seq<Capabilities>, counts: seq<nat>, numLayers: nat)
    requires |ws| == |counts|
    ensures var r := Drained(ws, counts, numLayers);
            (forall i :: 0 <= i < |r| ==> r[i] <= counts[i]) &&
            (forall i, j :: 0 <= i < |ws| && 0 <= j < |ws| && r[i] < counts[i] && DrainsFirst(ws, j, i) ==>
               r[j] == 0) &&
            Sum(r) == if Sum(counts) > numLayers then numLayers else Sum(counts)
    decreases Sum(counts)
  {
    hide Sum, DrainsFirst;
    if Sum(counts) > numLayers {
      SlowestFirst(ws, counts, |ws|);
      match SlowestBusy(ws, counts, |ws|) {
        case None => SumZero(counts);
        case Some(i) =>
          SumUpdate(counts, i, counts[i] - 1);
          DrainedInTurn(ws, counts[i := counts[i] - 1], numLayers);
      }
    }
  }

  /** Filling adds the layers that are missing, to no node while one before it has room. */
  lemma {:induction false} FilledInTurn(ws: seq<Capabilities>, counts: seq<nat>, ceilings: seq<nat>, numLayers: nat)
    requires |ws| == |counts| && AtMost(counts, ceilings) && Sum(ceilings) >= numLayers
    ensures var r := Filled(ws, counts, ceilings, numLayers);
            AtMost(r, ceilings) && (forall i :: 0 <= i < |r| ==> counts[i] <= r[i]) &&
            (forall i, j :: 0 <= i < |ws| && 0 <= j < |ws| && counts[i] < r[i] && Before(ws, j, i) ==>
               r[j] == ceilings[j]) &&
            Sum(r) == if Sum(counts) < numLayers then numLayers else Sum(counts)
    decreases numLayers - Sum(counts)
  {
    hide Sum, Before;
    if Sum(counts) < numLayers {
      FastestFirst(ws, counts, ceilings, |ws|);
      match FastestFree(ws, counts, ceilings, |ws|) {
        case None => SumMonotone(ceilings, counts);
        case Some(i) =>
          SumUpdate(counts, i, counts[i] + 1);
          FilledInTurn(ws, counts[i := counts[i] + 1], ceilings, numLayers);
      }
    }
  }

  /** The layers wanted, with every node before z filled up and one layer more for z. */
  ghost function Raised(ws: seq<Capabilities>, want: seq<nat>, ceilings: seq<nat>, z: nat): (r: seq<nat>)
    requires |ws| == |want| == |ceilings| && z < |ws|
    ensures |r| == |want|
  {
    seq(|want|, i requires 0 <= i < |want| =>
      if Before(ws, i, z) then ceilings[i] else if i == z then want[i] + 1 else want[i])
  }

  /**
   The layers wanted reach every node.  If they are too many, every node wants some, and what is
   taken back is less than the first to be drained wants.  If not, a node that wants none has
   room, and there are layers left for it when all nodes before it are full.
   */
  ghost predicate EveryoneServes(ws: seq<Capabilities>, want: seq<nat>, ceilings: seq<nat>, numLayers: nat)
    requires |ws| == |want| == |ceilings|
  {
    if Sum(want) > numLayers then
      (forall i :: 0 <= i < |want| ==> want[i] > 0) &&
      var first := SlowestBusy(ws, want, |ws|);
      first.Some? && Sum(want) - want[first.value] < numLayers
    else
      forall z :: 0 <= z < |want| && want[z] == 0 ==> ceilings[z] > 0 && Sum(Raised(ws, want, ceilings, z)) <= numLayers
  }

  lemma {:induction false} TooManyWanted(ws: seq<Capabilities>, want: seq<nat>, numLayers: nat, w: nat)
    requires |ws| == |want| && Sum(want) > numLayers && (forall i :: 0 <= i < |want| ==> want[i] > 0)
    requires SlowestBusy(ws, want, |ws|) == Some(w)
    ensures (forall i :: 0 <= i < |want| ==> Drained(ws, want, numLayers)[i] > 0) <==> Sum(want) - want[w] < numLayers
  {
    hide Sum, Drained;
    var r := Drained(ws, want, numLayers);
    DrainedInTurn(ws, want, numLayers);
    SlowestFirst(ws, want, |ws|);
    forall i | 0 <= i < |ws| && i != w
      ensures DrainsFirst(ws, w, i)
    {
      assert !DrainsFirst(ws, i, w);
    }
    SumUpdate(want, w, r[w]);
    SumUpdate(want, w, 0);
    if r[w] > 0 {
      assert forall i :: 0 <= i < |want| && i != w ==> r[i] == want[i];
      assert want[w := r[w]] == r;
    } else {
      SumMonotone(r, want[w := 0]);
    }
  }

  lemma {:induction false} NotTooManyWanted(ws: seq<Capabilities>, want: seq<nat>, ceilings: seq<nat>, numLayers: nat,
                                            z: nat)
    requires |ws| == |want| && AtMost(want, ceilings) && Sum(want) <= numLayers <= Sum(ceilings) && z < |ws| &&
             want[z] == 0
    ensures Filled(ws, want, ceilings, numLayers)[z] > 0 <==>
            ceilings[z] > 0 && Sum(Raised(ws, want, ceilings, z)) <= numLayers
  {
    hide Sum, Filled;
    var r, up := Filled(ws, want, ceilings, numLayers), Raised(ws, want, ceilings, z);
    FilledInTurn(ws, want, ceilings, numLayers);
    if r[z] > 0 {
      SumMonotone(up, r);
    } else if ceilings[z] > 0 {
      assert !Before(ws, z, z);
      SumUpdate(up, z, 0);
      forall i | 0 <= i < |ws|
        ensures r[i] <= up[z := 0][i]
      {
        if i != z && !Before(ws, i, z) { assert Before(ws, z, i); }
      }
      SumMonotone(r, up[z := 0]);
    }
  }

  ghost predicate AllPositive(counts: seq<nat>) {
    forall i :: 0 <= i < |counts| ==> counts[i] > 0
  }

  /** Balancing leaves every node layers iff what is wanted reaches every node. */
  lemma {:induction false} BalancedAllServe(ws: seq<Capabilities>, want: seq<nat>, ceilings: seq<nat>, numLayers: nat)
    requires |ws| == |want| && ws != [] && AtMost(want, ceilings) && Sum(ceilings) >= numLayers
    ensures AllPositive(Balanced(ws, want, ceilings, numLayers)) <==> EveryoneServes(ws, want, ceilings, numLayers)
    ensures Sum(Balanced(ws, want, ceilings, numLayers)) == numLayers
  {
    hide Sum, Filled, Drained;
    var filled := Filled(ws, want, ceilings, numLayers);
    if Sum(want) > numLayers {
      FilledEnough(ws, want, ceilings, numLayers);
      DrainedInTurn(ws, want, numLayers);
      SlowestFirst(ws, want, |ws|);
      if forall i :: 0 <= i < |want| ==> want[i] > 0 {
        assert want[0] > 0;
        TooManyWanted(ws, want, numLayers, SlowestBusy(ws, want, |ws|).value);
      }
    } else {
      FilledInTurn(ws, want, ceilings, numLayers);
      DrainedEnough(ws, filled, numLayers);
      forall z | 0 <= z < |want|
        ensures filled[z] > 0 <==>
                (want[z] == 0 ==> ceilings[z] > 0 && Sum(Raised(ws, want, ceilings, z)) <= numLayers)
      {
        if want[z] == 0 { NotTooManyWanted(ws, want, ceilings, numLayers, z); }
      }
    }
  }

  /** Exactly when Auto gives every node layers, by what the nodes can do and the number of layers alone. */
  lemma {:induction false} AutoAllServe(nodes: seq<Capabilities>, c: ModelConfig, perLayer: nat, parts: seq<Assignment>)
    requires AllPlausible(nodes) && nodes != [] && Sum(Ceilings(nodes, perLayer, c)) >= c.numLayers
    requires Laid(nodes, AutoCounts(nodes, c, perLayer), parts)
    ensures var ceilings := Ceilings(nodes, perLayer, c);
            Tiles(Layout(parts), c.numLayers) <==>
            EveryoneServes(nodes, Clamped(nodes, c, ceilings), ceilings, c.numLayers)
  {
    hide Sum, Balanced, Ceilings, Clamped, AllPlausible, Laid, Tiles, EveryoneServes;
    var ceilings := Ceilings(nodes, perLayer, c);
    BalancedAllServe(nodes, Clamped(nodes, c, ceilings), ceilings, c.numLayers);
    PipelineTakesCounts(nodes, AutoCounts(nodes, c, perLayer), parts);
  }

  lemma {:induction false} FilledEnough(ws: seq<Capabilities>, counts: seq<nat>, ceilings: seq<nat>, numLayers: nat)
    requires |ws| == |counts| == |ceilings| && Sum(counts) >= numLayers
    ensures Filled(ws, counts, ceilings, numLayers) == counts
  {
  }

  lemma {:induction false} DrainedEnough(ws: seq<Capabilities>, counts: seq<nat>, numLayers: nat)
    requires |ws| == |counts| && Sum(counts) <= numLayers
    ensures Drained(ws, counts, numLayers) == counts
  {
  }

  /**
   Two equal nodes and one layer: rounding gives each of them the layer, one is taken back, and
   the schedule has a node without layers, which a pipeline refuses.
   */
  lemma {:induction false} AutoLeavesIdle(parts: seq<Assignment>)
    requires AllPlausible(TWO_HALVES) && Laid(TWO_HALVES, AutoCounts(TWO_HALVES, SMALL_MODEL, 22), parts)
    ensures PerLayer(SMALL_MODEL, 1) == 22 && Pruned(TWO_HALVES, SMALL_MODEL, 22, 2.0) == TWO_HALVES
    ensures Sum(Ceilings(TWO_HALVES, 22, SMALL_MODEL)) >= SMALL_MODEL.numLayers
    ensures AutoCounts(TWO_HALVES, SMALL_MODEL, 22) == [0, 1] && !Tiles(Layout(parts), 1)
  {
    var ws, c := TWO_HALVES, SMALL_MODEL;
    SmallSizes();
    HalvesIdeal();
    assert Ceilings(ws, 22, c) == [1, 1];
    SumOfTwo(1, 1);
    SumOfTwo(0, 1);
    assert Slowest(ws) == 1 && Without(ws, 1) == [HALF_A];
    assert Rooms([HALF_A], c) == [18] && [18][..0] == [];
    assert Sum([18]) == Sum([]) + 18;
    assert Clamped(ws, c, [1, 1]) == [1, 1];
    assert Filled(ws, [1, 1], [1, 1], 1) == [1, 1];
    assert SlowestBusy(ws, [1, 1], 1) == Some(0);
    assert SlowestBusy(ws, [1, 1], 2) == Some(0);
    assert [1, 1][0 := 0] == [0, 1];
    assert Drained(ws, [1, 1], 1) == Drained(ws, [0, 1], 1);
    PipelineTakesCounts(ws, [0, 1], parts);
  }

  lemma {:induction false} SumOfTwo(a: nat, b: nat)
    ensures Sum([a, b]) == a + b
  {
    assert [a, b][..1] == [a] && [a][..0] == [];
    assert Sum([a]) == Sum([]) + a;
  }

  lemma {:induction false} SumOfThree(a: nat, b: nat, c: nat)
    ensures Sum([a, b, c]) == a + b + c
  {
    assert [a, b, c][..2] == [a, b];
    SumOfTwo(a, b);
  }

  lemma {:induction false} SpeedOf(all: seq<Capabilities>, fast: seq<Capabilities>)
    requires all == [SLOW, FAST_A, FAST_B] && fast == [FAST_A, FAST_B]
    ensures AllPlausible(all) && AllPlausible(fast) && TotalSpeed(all) == 2.1 && TotalSpeed(fast) == 2.0
  {
    assert fast[..1] == [FAST_A] && [FAST_A][..0] == [];
    assert all[..2] == [SLOW, FAST_A] && [SLOW, FAST_A][..1] == [SLOW] && [SLOW][..0] == [];
    assert TotalSpeed([FAST_A]) == TotalSpeed([]) + 1.0;
    assert TotalSpeed([SLOW]) == TotalSpeed([]) + 0.1;
    assert TotalSpeed([SLOW, FAST_A]) == TotalSpeed([SLOW]) + 1.0;
  }

  /** A node without room for a layer takes no time. */
  lemma {:induction false} NoTime(ws: seq<Capabilities>, c: ModelConfig, perLayer: nat, i: nat)
    requires AllPlausible(ws) && i < |ws| && Ceilings(ws, perLayer, c)[i] == 0
    ensures EstimatedTime(ws, c, perLayer, i) == 0.0
  {
    assert MaxLayers(ws[i].memory, perLayer, RoleOverhead(c, i, |ws|)) == 0;
  }

  lemma {:induction false} SlowIdeal(all: seq<Capabilities>)
    requires all == [SLOW, FAST_A, FAST_B] && AllPlausible(all) && TotalSpeed(all) == 2.1
    ensures Ideal(all, 1, 0) == 0
  {
    assert 1.0 / SLOW.decodeMs == 0.1;
    assert 0.1 / 2.1 * 1.0 < 0.5;
  }
}
