/**
 What a pass over a pipeline computes: for each sequence of the call, what one node with all
 the layers would, and the workers' caches put together are that node's cache.
 */
module PipelineMeaning {
  import opened Core
  import opened Transformer
  import opened Nodes
  import opened PipelineLayout
  import opened WorkerProtocol
  import opened BatchWire
  import opened DistributedPipelines

  ghost predicate DistinctNodes(parts: seq<LayerAssignment>) {
    forall i, j :: 0 <= i < j < |parts| ==> parts[i].nodeId != parts[j].nodeId
  }

  /** The worker of stage k runs the layers that the assignment gives it. */
  ghost predicate LaidAt(m: Model, a: LayerAssignment, hiddenSize: nat, links: Links) {
    a.nodeId in links && ValidWorker(m, links[a.nodeId].worker) &&
    links[a.nodeId].worker.cfg == NodeConfig(a.start, a.end, |m.layers|) &&
    links[a.nodeId].worker.hiddenSize == hiddenSize
  }

  ghost predicate Laid(m: Model, parts: seq<LayerAssignment>, hiddenSize: nat, links: Links) {
    Tiles(parts, |m.layers|) && DistinctNodes(parts) && ValidLinks(m, links) &&
    forall i :: 0 <= i < |parts| ==> LaidAt(m, parts[i], hiddenSize, links)
  }

  function NodeIds(parts: seq<LayerAssignment>): (order: seq<NodeId>)
    ensures |order| == |parts|
    ensures forall i :: 0 <= i < |parts| ==> order[i] == parts[i].nodeId
  {
    seq(|parts|, i requires 0 <= i < |parts| => parts[i].nodeId)
  }

  /** A stage with no unread reply and a cache for every sequence of the call. */
  ghost predicate ReadyAt(a: LayerAssignment, links: Links, call: Call) {
    a.nodeId in links && links[a.nodeId].outbox == [] &&
    forall j :: 0 <= j < call.Count() ==> call.SeqAt(j) in call.Caches(links[a.nodeId].worker)
  }

  ghost predicate Ready(parts: seq<LayerAssignment>, links: Links, call: Call, i: nat) {
    forall k :: i <= k < |parts| ==> ReadyAt(parts[k], links, call)
  }

  /** Every sequence brings rows, and a batch holds a sequence at most once. */
  ghost predicate Sound(call: Call) {
    match call
    case Single(_, ps) => ps != []
    case Batch(metas) => metas != [] && DistinctSeqs(metas) && SameCounts(metas)
  }

  /** What goes into stage i: ids at the head, the rows of the stage before elsewhere. */
  ghost predicate Feeds(m: Model, call: Call, i: nat, input: WireInput, idss: seq<seq<nat>>, xss: seq<seq<Row>>) {
    |xss| == call.Count() && (forall j :: 0 <= j < call.Count() ==> |xss[j]| == |call.PosAt(j)|) &&
    if i == 0 then
      |idss| == call.Count() && input == WireIds(Concat(idss)) &&
      forall j :: 0 <= j < |idss| ==> xss[j] == Embed(m, idss[j])
    else input == WireRows(Concat(xss))
  }

  // ----- one stage -----

  /** The step each sequence of the call makes at a stage. */
  ghost function StageSteps(o: Ops, ws: seq<Layer>, caches: map<SeqId, seq<KV>>, call: Call,
                            xss: seq<seq<Row>>): (steps: seq<NodeStep>)
    requires |xss| == call.Count() && forall j :: 0 <= j < call.Count() ==> |xss[j]| == |call.PosAt(j)|
    requires forall j :: 0 <= j < call.Count() ==>
      call.SeqAt(j) in caches && |caches[call.SeqAt(j)]| == |ws| && Paired(caches[call.SeqAt(j)])
    ensures |steps| == call.Count()
    ensures forall j :: 0 <= j < call.Count() ==>
      |steps[j].hidden| == |call.PosAt(j)| && |steps[j].caches| == |ws| && Paired(steps[j].caches)
  {
    seq(call.Count(), j requires 0 <= j < call.Count() => NodeCached(o, ws, caches[call.SeqAt(j)], xss[j],
                                                                     call.PosAt(j)))
  }

  /** A stage's caches after the steps: those of the call's sequences are new, the others as before. */
  ghost predicate CachesStored(call: Call, caches: map<SeqId, seq<KV>>, caches': map<SeqId, seq<KV>>,
                               css: seq<seq<KV>>) {
    |css| == call.Count() && caches'.Keys == caches.Keys &&
    (forall j :: 0 <= j < call.Count() ==> call.SeqAt(j) in caches' && caches'[call.SeqAt(j)] == css[j]) &&
    (forall t :: t in caches && !call.Has(t) ==> caches'[t] == caches[t])
  }

  function CachesIn(steps: seq<NodeStep>): (css: seq<seq<KV>>)
    ensures |css| == |steps|
  {
    seq(|steps|, j requires 0 <= j < |steps| => steps[j].caches)
  }

  lemma {:induction false} ConcatOne<T>(part: seq<T>)
    ensures Concat([part]) == part
  {
    assert Concat([part]) == part + Concat([part][1..]);
  }

  lemma {:induction false} SingleServes(m: Model, w: Worker, s: SeqId, ps: seq<nat>, input: WireInput, xs: seq<Row>,
                                        env: Env)
    requires ValidWorker(m, w) && s in w.handles && |xs| == |ps| > 0 && env.computeOk &&
             Resolve(m, w.cfg, input) == Ok(xs)
    ensures var ws := WeightsOf(m, w.cfg);
            var steps := StageSteps(m.ops, ws, w.handles, Single(s, ps), [xs]);
            var served := Serve(m, w, Forward(s, ps, input), env);
            served.worker == w.(handles := served.worker.handles) &&
            CachesStored(Single(s, ps), w.handles, served.worker.handles, CachesIn(steps)) &&
            served.replies == [if w.cfg.IsTail() then LogitsReply(Concat(LastLogits(m, Hiddens(steps))), false)
                               else RowsReply(Concat(Hiddens(steps)), w.hiddenSize, false)]
  {
    hide NodeCached, Logits, Resolve;
    var call := Single(s, ps);
    var step := NodeCached(m.ops, WeightsOf(m, w.cfg), w.handles[s], xs, ps);
    var steps := StageSteps(m.ops, WeightsOf(m, w.cfg), w.handles, call, [xs]);
    assert steps == [step];
    assert Hiddens(steps) == [step.hidden] && LastLogits(m, Hiddens(steps)) == [Logits(m, step.hidden[|ps| - 1])];
    ConcatOne(step.hidden);
    ConcatOne(Logits(m, step.hidden[|ps| - 1]));
    assert call.SeqAt(0) == s && call.Has(s);
  }

  lemma {:induction false} BatchStored(cfg: NodeConfig, paged: map<SeqId, seq<KV>>, metas: seq<SequenceMeta>,
                                       steps: seq<NodeStep>)
    requires |metas| == |steps| && AllCached(paged, metas) && DistinctSeqs(metas)
    requires forall s :: s in paged ==> Shaped(cfg, paged[s])
    requires forall i :: 0 <= i < |steps| ==> Shaped(cfg, steps[i].caches)
    ensures CachesStored(Batch(metas), paged, StoreAll(paged, metas, steps), CachesIn(steps))
  {
    hide StoreAll, Shaped;
    var call := Batch(metas);
    StoredOwn(paged, metas, steps);
    StoreKeeps(cfg, paged, metas, steps);
    forall t | t in paged && !call.Has(t)
      ensures StoreAll(paged, metas, steps)[t] == paged[t]
    {
      forall j | 0 <= j < |metas|
        ensures metas[j].seqId != t
      {
        assert call.SeqAt(j) == metas[j].seqId;
      }
    }
  }

  lemma {:induction false} BatchServes(m: Model, w: Worker, metas: seq<SequenceMeta>, input: WireInput,
                                       xss: seq<seq<Row>>, env: Env)
    requires ValidWorker(m, w) && AllCached(w.pagedHandles, metas) && Sound(Batch(metas)) && Parts(metas, xss) &&
             env.computeOk
    requires if w.cfg.IsHead() then input.WireIds? && |input.ids| == TotalTokens(metas) &&
             Embed(m, input.ids) == Concat(xss)
             else input == WireRows(Concat(xss))
    ensures var ws := WeightsOf(m, w.cfg);
            var steps := StageSteps(m.ops, ws, w.pagedHandles, Batch(metas), xss);
            var served := Serve(m, w, BatchedForward(metas, input), env);
            served.worker == w.(pagedHandles := served.worker.pagedHandles) &&
            CachesStored(Batch(metas), w.pagedHandles, served.worker.pagedHandles, CachesIn(steps)) &&
            served.replies == [if w.cfg.IsTail() then LogitsReply(Concat(LastLogits(m, Hiddens(steps))), true)
                               else RowsReply(Concat(Hiddens(steps)), w.hiddenSize, true)]
  {
    hide NodeCached, Logits, Steps, StoreAll, FlatLogits, HiddenRows, Embed, CachesStored, Concat, TotalTokens,
      TotalPositions;
    var ws, call := WeightsOf(m, w.cfg), Batch(metas);
    var steps := StageSteps(m.ops, ws, w.pagedHandles, call, xss);
    PartsLength(metas, xss);
    StepsAreOwn(m.ops, ws, w.pagedHandles, metas, xss);
    assert steps == OwnSteps(m.ops, ws, w.pagedHandles, metas, xss);
    HiddenIsConcat(steps);
    BatchStored(w.cfg, w.pagedHandles, metas, steps);
    FlatIsConcat(m, metas, [], Hiddens(steps));
    assert [] + Concat(Hiddens(steps)) == Concat(Hiddens(steps));
    if w.cfg.IsHead() { assert input.ids[..TotalTokens(metas)] == input.ids; }
  }

  /** What stage k does with a call it is ready for. */
  ghost predicate StageDone(m: Model, ws: seq<Layer>, l: Link, call: Call, xss: seq<seq<Row>>, isLast: bool, l': Link,
                            steps: seq<NodeStep>) {
    |steps| == call.Count() && (forall j :: 0 <= j < |steps| ==> steps[j].hidden != []) &&
    l'.worker == call.With(l.worker, call.Caches(l'.worker)) &&
    CachesStored(call, call.Caches(l.worker), call.Caches(l'.worker), CachesIn(steps)) &&
    l'.outbox == [if isLast then LogitsReply(Concat(LastLogits(m, Hiddens(steps))), call.Batch?)
                  else RowsReply(Concat(Hiddens(steps)), l.worker.hiddenSize, call.Batch?)]
  }

  lemma {:induction false} CallPositions(call: Call, j: nat)
    requires Sound(call) && j < call.Count()
    ensures call.PosAt(j) != []
  {
  }

  lemma {:induction false} ShapedAt(m: Model, w: Worker, call: Call, j: nat)
    requires ValidWorker(m, w) && j < call.Count() && call.SeqAt(j) in call.Caches(w)
    ensures |call.Caches(w)[call.SeqAt(j)]| == |WeightsOf(m, w.cfg)| && Paired(call.Caches(w)[call.SeqAt(j)])
  {
  }

  lemma {:induction false} WorkerRange(m: Model, w: Worker)
    requires ValidWorker(m, w)
    ensures w.cfg.Valid() && w.cfg.total == |m.layers|
  {
  }

  /** The input of stage i, seen by its worker. */
  lemma {:induction false} FeedsSingle(m: Model, s: SeqId, ps: seq<nat>, i: nat, input: WireInput,
                                       idss: seq<seq<nat>>, xss: seq<seq<Row>>, cfg: NodeConfig)
    requires Feeds(m, Single(s, ps), i, input, idss, xss) && ps != [] && (cfg.IsHead() <==> i == 0)
    ensures Resolve(m, cfg, input) == Ok(xss[0]) && xss == [xss[0]] && |xss[0]| == |ps|
  {
    assert |xss[0]| == |Single(s, ps).PosAt(0)|;
    if i == 0 {
      assert idss == [idss[0]];
      ConcatOne(idss[0]);
    } else {
      assert xss == [xss[0]];
      ConcatOne(xss[0]);
    }
  }

  lemma {:induction false} FeedsBatch(m: Model, metas: seq<SequenceMeta>, i: nat, input: WireInput,
                                      idss: seq<seq<nat>>, xss: seq<seq<Row>>)
    requires Feeds(m, Batch(metas), i, input, idss, xss) && Sound(Batch(metas))
    ensures Parts(metas, xss)
    ensures i == 0 ==> input.WireIds? && |input.ids| == TotalTokens(metas) && Embed(m, input.ids) == Concat(xss)
  {
    hide Embed;
    forall j | 0 <= j < |metas|
      ensures |xss[j]| == |metas[j].positions|
    {
      assert |xss[j]| == |Batch(metas).PosAt(j)|;
    }
    if i == 0 {
      EmbedConcat(m, idss);
      assert xss == seq(|idss|, j requires 0 <= j < |idss| => Embed(m, idss[j]));
      PartsLength(metas, xss);
      CountsAgree(metas);
      EmbedLength(m, input.ids);
    }
  }

  lemma {:induction false} EmbedLength(m: Model, ids: seq<nat>)
    ensures |Embed(m, ids)| == |ids|
  {
  }

  lemma {:induction false} StageServes(m: Model, l: Link, call: Call, input: WireInput, idss: seq<seq<nat>>,
                                       xss: seq<seq<Row>>, env: Env, k: nat, isLast: bool)
    returns (steps: seq<NodeStep>)
    requires ValidWorker(m, l.worker) && l.outbox == [] && Sound(call) && Feeds(m, call, k, input, idss, xss) &&
             env.computeOk && !env.leaves
    requires (l.worker.cfg.IsHead() <==> k == 0) && (l.worker.cfg.IsTail() <==> isLast)
    requires forall j :: 0 <= j < call.Count() ==> call.SeqAt(j) in call.Caches(l.worker)
    ensures forall j :: 0 <= j < call.Count() ==>
      |call.Caches(l.worker)[call.SeqAt(j)]| == |WeightsOf(m, l.worker.cfg)| &&
      Paired(call.Caches(l.worker)[call.SeqAt(j)])
    ensures |xss| == call.Count() && forall j :: 0 <= j < call.Count() ==> |xss[j]| == |call.PosAt(j)|
    ensures steps == StageSteps(m.ops, WeightsOf(m, l.worker.cfg), call.Caches(l.worker), call, xss)
    ensures StageDone(m, WeightsOf(m, l.worker.cfg), l, call, xss, isLast,
                      Delivered(m, l, RequestOf(call, input), env), steps)
  {
    hide NodeCached, Serve, ServeForward, ServeBatch, Feeds, CachesStored, LastLogits, ValidWorker, WeightsOf;
    WorkerRange(m, l.worker);
    var w, ws := l.worker, WeightsOf(m, l.worker.cfg);
    forall j | 0 <= j < call.Count()
      ensures |call.Caches(w)[call.SeqAt(j)]| == |ws| && Paired(call.Caches(w)[call.SeqAt(j)])
    {
      ShapedAt(m, w, call, j);
    }
    FeedsLengths(m, call, k, input, idss, xss);
    steps := StageSteps(m.ops, ws, call.Caches(w), call, xss);
    forall j | 0 <= j < call.Count()
      ensures steps[j].hidden != []
    {
      CallPositions(call, j);
    }
    match call {
      case Single(s, ps) =>
        FeedsSingle(m, s, ps, k, input, idss, xss, w.cfg);
        assert call.SeqAt(0) == s;
        SingleServes(m, w, s, ps, input, xss[0], env);
      case Batch(metas) =>
        FeedsBatch(m, metas, k, input, idss, xss);
        FeedsRows(m, call, k, input, idss, xss);
        assert forall j :: 0 <= j < |metas| ==> call.SeqAt(j) == metas[j].seqId;
        BatchServes(m, w, metas, input, xss, env);
    }
    OneReply(Serve(m, w, RequestOf(call, input), env).replies[0]);
  }

  lemma {:induction false} FeedsLengths(m: Model, call: Call, i: nat, input: WireInput, idss: seq<seq<nat>>,
                                        xss: seq<seq<Row>>)
    requires Feeds(m, call, i, input, idss, xss)
    ensures |xss| == call.Count() && forall j :: 0 <= j < call.Count() ==> |xss[j]| == |call.PosAt(j)|
  {
  }

  lemma {:induction false} FeedsRows(m: Model, call: Call, i: nat, input: WireInput, idss: seq<seq<nat>>,
                                     xss: seq<seq<Row>>)
    requires Feeds(m, call, i, input, idss, xss)
    ensures i > 0 ==> input == WireRows(Concat(xss))
  {
  }

  // ----- all stages -----

  /** The caches of the call's sequence j at the stages from i on. */
  ghost function CachesFrom(parts: seq<LayerAssignment>, links: Links, call: Call, j: nat, i: nat): (css: seq<seq<KV>>)
    requires i <= |parts| && Ready(parts, links, call, i) && j < call.Count()
    ensures |css| == |parts| - i
  {
    seq(|parts| - i, k requires 0 <= k < |parts| - i =>
      assert ReadyAt(parts[i + k], links, call);
      call.Caches(links[parts[i + k].nodeId].worker)[call.SeqAt(j)])
  }

  lemma {:induction false} FitFrom(m: Model, parts: seq<LayerAssignment>, hiddenSize: nat, links: Links, call: Call,
                                   j: nat, i: nat)
    requires Laid(m, parts, hiddenSize, links) && i <= |parts| && Ready(parts, links, call, i) && j < call.Count()
    ensures CachesFit(parts[i..], CachesFrom(parts, links, call, j, i)) && Within(parts[i..], |m.layers|)
  {
    TilesWithin(parts, |m.layers|);
    forall k | 0 <= k < |parts| - i
      ensures parts[i..][k].start + |CachesFrom(parts, links, call, j, i)[k]| == parts[i..][k].end
      ensures Paired(CachesFrom(parts, links, call, j, i)[k])
    {
      assert LaidAt(m, parts[i + k], hiddenSize, links) && ReadyAt(parts[i + k], links, call);
      ShapedAt(m, links[parts[i + k].nodeId].worker, call, j);
    }
  }

  ghost predicate RowsFit(call: Call, xss: seq<seq<Row>>) {
    |xss| == call.Count() && forall j :: 0 <= j < call.Count() ==> |xss[j]| == |call.PosAt(j)|
  }

  /** Sequence j of the call through the stages from i on. */
  ghost function ChainOf(m: Model, parts: seq<LayerAssignment>, hiddenSize: nat, links: Links, call: Call,
                         xss: seq<seq<Row>>, j: nat, i: nat): (c: Chained)
    requires Laid(m, parts, hiddenSize, links) && i <= |parts| && Ready(parts, links, call, i) && j < call.Count() &&
             RowsFit(call, xss)
    ensures |c.rows| == |xss[j]| && |c.css| == |parts| - i
  {
    FitFrom(m, parts, hiddenSize, links, call, j, i);
    Chain(m, parts[i..], CachesFrom(parts, links, call, j, i), xss[j], call.PosAt(j))
  }

  ghost function ChainsOf(m: Model, parts: seq<LayerAssignment>, hiddenSize: nat, links: Links, call: Call,
                          xss: seq<seq<Row>>, i: nat): (cs: seq<Chained>)
    requires Laid(m, parts, hiddenSize, links) && i <= |parts| && Ready(parts, links, call, i) && RowsFit(call, xss)
    ensures |cs| == call.Count()
    ensures forall j :: 0 <= j < |cs| ==> |cs[j].rows| == |call.PosAt(j)| && |cs[j].css| == |parts| - i
  {
    seq(call.Count(), j requires 0 <= j < call.Count() => ChainOf(m, parts, hiddenSize, links, call, xss, j, i))
  }

  ghost function RowsIn(cs: seq<Chained>): (rows: seq<seq<Row>>)
    ensures |rows| == |cs|
  {
    seq(|cs|, j requires 0 <= j < |cs| => cs[j].rows)
  }

  ghost function CssAt(cs: seq<Chained>, d: nat): (css: seq<seq<KV>>)
    requires forall j :: 0 <= j < |cs| ==> d < |cs[j].css|
    ensures |css| == |cs|
  {
    seq(|cs|, j requires 0 <= j < |cs| => cs[j].css[d])
  }

  /** A stage after the pass: quiet, and its caches are those of the chains. */
  ghost predicate StoredAt(call: Call, l: Link, l': Link, css: seq<seq<KV>>) {
    l'.outbox == [] && l'.worker == call.With(l.worker, call.Caches(l'.worker)) &&
    CachesStored(call, call.Caches(l.worker), call.Caches(l'.worker), css)
  }

  ghost predicate Among(parts: seq<LayerAssignment>, id: NodeId, i: nat) {
    exists k :: i <= k < |parts| && parts[k].nodeId == id
  }

  /** The stages from i on have stored the chains' caches, and nothing else has changed. */
  ghost predicate PassStored(parts: seq<LayerAssignment>, links: Links, links': Links, call: Call, cs: seq<Chained>,
                             i: nat) {
    links'.Keys == links.Keys && i <= |parts| && (forall j :: 0 <= j < |cs| ==> |cs[j].css| == |parts| - i) &&
    (forall k :: i <= k < |parts| ==>
      parts[k].nodeId in links && StoredAt(call, links[parts[k].nodeId], links'[parts[k].nodeId], CssAt(cs, k - i))) &&
    (forall id :: id in links && !Among(parts, id, i) ==> links'[id] == links[id])
  }

  /** The stages from i to n compute, and none of them announces its leave. */
  ghost predicate AllAnswer(envs: seq<Env>, i: nat, n: nat) {
    forall k :: i <= k < n ==> Answers(envs, k)
  }

  ghost predicate Answers(envs: seq<Env>, i: nat) {
    i < |envs| && envs[i].computeOk && !envs[i].leaves
  }

  ghost predicate Leaves(envs: seq<Env>, i: nat) {
    i < |envs| && envs[i].leaves
  }

  /** A stage from i to n announces its leave, and those before it have answered. */
  ghost predicate LeaveMet(envs: seq<Env>, i: nat, n: nat) {
    exists k :: i <= k < n && Leaves(envs, k) && AllAnswer(envs, i, k)
  }

  lemma {:induction false} LeaveMetStep(envs: seq<Env>, i: nat, n: nat)
    requires i < n <= |envs|
    ensures LeaveMet(envs, i, n) <==> if Answers(envs, i) then LeaveMet(envs, i + 1, n) else Leaves(envs, i)
    ensures !LeaveMet(envs, n, n)
  {
    if LeaveMet(envs, i, n) {
      var k :| i <= k < n && Leaves(envs, k) && AllAnswer(envs, i, k);
      if i < k { assert Answers(envs, i) && AllAnswer(envs, i + 1, k); }
    }
    if Answers(envs, i) && LeaveMet(envs, i + 1, n) {
      var k :| i + 1 <= k < n && Leaves(envs, k) && AllAnswer(envs, i + 1, k);
      assert AllAnswer(envs, i, k);
    }
    if Leaves(envs, i) { assert AllAnswer(envs, i, i); }
  }

  /**
   The pass succeeds iff every stage answers; then every sequence comes out of its chain.  A
   stage that announces its leave is a protocol error, one that does not compute is not.
   */
  ghost predicate PassResult(m: Model, parts: seq<LayerAssignment>, links: Links, call: Call, envs: seq<Env>, i: nat,
                             cs: seq<Chained>, out: StageResult) {
    (forall j :: 0 <= j < |cs| ==> cs[j].rows != []) &&
    (out.result.Ok? <==> AllAnswer(envs, i, |parts|)) &&
    (out.result.Err? ==> out.result.error == if LeaveMet(envs, i, |parts|) then Protocol else Pipeline) &&
    (out.result.Ok? ==>
       out.result.value == Concat(LastLogits(m, RowsIn(cs))) && PassStored(parts, links, out.links, call, cs, i))
  }

  /** One more stage in front. */
  ghost function Prepend(steps: seq<NodeStep>, rest: seq<Chained>): (cs: seq<Chained>)
    requires |steps| == |rest|
    ensures |cs| == |rest|
  {
    seq(|rest|, j requires 0 <= j < |rest| => Chained(rest[j].rows, [steps[j].caches] + rest[j].css))
  }

  lemma {:induction false} PassStoredStep(parts: seq<LayerAssignment>, links: Links, l': Link, links': Links,
                                          call: Call, steps: seq<NodeStep>, rest: seq<Chained>, i: nat)
    requires i < |parts| && DistinctNodes(parts) && parts[i].nodeId in links && |steps| == |rest|
    requires StoredAt(call, links[parts[i].nodeId], l', CachesIn(steps))
    requires PassStored(parts, links[parts[i].nodeId := l'], links', call, rest, i + 1)
    ensures PassStored(parts, links, links', call, Prepend(steps, rest), i)
  {
    hide StoredAt;
    var id, cs := parts[i].nodeId, Prepend(steps, rest);
    assert !Among(parts, id, i + 1);
    assert links[id := l'].Keys == links.Keys;
    assert CssAt(cs, 0) == CachesIn(steps);
    forall k | i <= k < |parts|
      ensures parts[k].nodeId in links &&
              StoredAt(call, links[parts[k].nodeId], links'[parts[k].nodeId], CssAt(cs, k - i))
    {
      if k > i { assert CssAt(cs, k - i) == CssAt(rest, k - (i + 1)); }
    }
    forall g | g in links && !Among(parts, g, i)
      ensures links'[g] == links[g]
    {
      assert parts[i].nodeId != g;
      assert !Among(parts, g, i + 1);
    }
  }

  /** When the device fails, the stage answers with an error. */
  lemma {:induction false} StageFails(m: Model, l: Link, call: Call, input: WireInput, idss: seq<seq<nat>>,
                                      xss: seq<seq<Row>>, env: Env, k: nat)
    requires ValidWorker(m, l.worker) && l.outbox == [] && Sound(call) && Feeds(m, call, k, input, idss, xss) &&
             !env.computeOk
    requires l.worker.cfg.IsHead() <==> k == 0
    requires forall j :: 0 <= j < call.Count() ==> call.SeqAt(j) in call.Caches(l.worker)
    ensures Delivered(m, l, RequestOf(call, input), env).outbox == Intent(env.leaves) + [ErrorReply]
  {
    hide Spoilt, Embed, ValidWorker, Feeds;
    OneReply(ErrorReply);
    match call {
      case Single(s, ps) =>
        FeedsSingle(m, s, ps, k, input, idss, xss, l.worker.cfg);
        assert call.SeqAt(0) == s;
      case Batch(metas) =>
        FeedsBatch(m, metas, k, input, idss, xss);
        FeedsRows(m, call, k, input, idss, xss);
        assert forall j :: 0 <= j < |metas| ==> call.SeqAt(j) == metas[j].seqId;
    }
  }

  /** The rest of the pipeline is still laid out and ready when stage i has been served. */
  lemma {:induction false} LaidAfter(m: Model, parts: seq<LayerAssignment>, hiddenSize: nat, links: Links, call: Call,
                                     i: nat, l': Link)
    requires Laid(m, parts, hiddenSize, links) && i < |parts| && Ready(parts, links, call, i)
    requires ValidWorker(m, l'.worker) && l'.worker == call.With(links[parts[i].nodeId].worker, call.Caches(l'.worker))
    ensures var links' := links[parts[i].nodeId := l'];
            Laid(m, parts, hiddenSize, links') && Ready(parts, links', call, i + 1) &&
            forall j :: 0 <= j < call.Count() ==>
              CachesFrom(parts, links', call, j, i + 1) == CachesFrom(parts, links, call, j, i)[1..]
  {
    hide Tiles, ValidWorker;
    var links' := links[parts[i].nodeId := l'];
    forall k | 0 <= k < |parts|
      ensures LaidAt(m, parts[k], hiddenSize, links') && (k > i ==> ReadyAt(parts[k], links', call))
    {
      assert LaidAt(m, parts[k], hiddenSize, links);
      if k > i { assert ReadyAt(parts[k], links, call); }
    }
    forall j | 0 <= j < call.Count()
      ensures CachesFrom(parts, links', call, j, i + 1) == CachesFrom(parts, links, call, j, i)[1..]
    {
      forall k | 0 <= k < |parts| - i - 1
        ensures CachesFrom(parts, links', call, j, i + 1)[k] == CachesFrom(parts, links, call, j, i)[1..][k]
      {
        assert parts[i + 1 + k].nodeId != parts[i].nodeId;
      }
    }
  }

  /** The chains from stage i on: the steps of stage i, then the chains from the next stage on. */
  lemma {:induction false} ChainsStep(m: Model, parts: seq<LayerAssignment>, hiddenSize: nat, links: Links,
                                      call: Call, xss: seq<seq<Row>>, i: nat, l': Link, steps: seq<NodeStep>)
    requires Laid(m, parts, hiddenSize, links) && i < |parts| && Ready(parts, links, call, i) && RowsFit(call, xss)
    requires ValidWorker(m, l'.worker) && l'.worker == call.With(links[parts[i].nodeId].worker, call.Caches(l'.worker))
    requires parts[i].start <= parts[i].end <= |m.layers|
    requires |steps| == call.Count() && forall j :: 0 <= j < call.Count() ==>
      var cs := CachesFrom(parts, links, call, j, i)[0];
      |cs| == parts[i].end - parts[i].start && Paired(cs) &&
      steps[j] == NodeCached(m.ops, m.layers[parts[i].start..parts[i].end], cs, xss[j], call.PosAt(j))
    ensures var links' := links[parts[i].nodeId := l'];
            Laid(m, parts, hiddenSize, links') && Ready(parts, links', call, i + 1) && RowsFit(call, Hiddens(steps)) &&
            ChainsOf(m, parts, hiddenSize, links, call, xss, i)
              == Prepend(steps, ChainsOf(m, parts, hiddenSize, links', call, Hiddens(steps), i + 1))
  {
    hide Laid, Ready, NodeCached, CachesFrom, CachesFit;
    LaidAfter(m, parts, hiddenSize, links, call, i, l');
    var links' := links[parts[i].nodeId := l'];
    var cs := ChainsOf(m, parts, hiddenSize, links, call, xss, i);
    var rest := ChainsOf(m, parts, hiddenSize, links', call, Hiddens(steps), i + 1);
    assert parts[i..][1..] == parts[i + 1..] && parts[i..][0] == parts[i];
    forall j | 0 <= j < call.Count()
      ensures cs[j] == Prepend(steps, rest)[j]
    {
      FitFrom(m, parts, hiddenSize, links, call, j, i);
    }
  }

  lemma {:induction false} StageAt(m: Model, parts: seq<LayerAssignment>, hiddenSize: nat, links: Links, call: Call,
                                   i: nat)
    requires Laid(m, parts, hiddenSize, links) && i < |parts| && Ready(parts, links, call, i)
    ensures DistinctNodes(parts) && ValidLinks(m, links) && parts[i].start <= parts[i].end <= |m.layers|
    ensures parts[i].nodeId in links
    ensures var l := links[parts[i].nodeId];
            ValidWorker(m, l.worker) && l.outbox == [] && l.worker.hiddenSize == hiddenSize &&
            l.worker.cfg == NodeConfig(parts[i].start, parts[i].end, |m.layers|) &&
            WeightsOf(m, l.worker.cfg) == m.layers[parts[i].start..parts[i].end] &&
            (l.worker.cfg.IsHead() <==> i == 0) && (l.worker.cfg.IsTail() <==> i == |parts| - 1) &&
            forall j :: 0 <= j < call.Count() ==>
              call.SeqAt(j) in call.Caches(l.worker) &&
              CachesFrom(parts, links, call, j, i)[0] == call.Caches(l.worker)[call.SeqAt(j)]
  {
    assert LaidAt(m, parts[i], hiddenSize, links) && ReadyAt(parts[i], links, call);
    RolesAgree(parts, |m.layers|, i);
  }

  lemma {:induction false} PassResultStep(m: Model, parts: seq<LayerAssignment>, links: Links, call: Call,
                                          envs: seq<Env>, i: nat, l': Link, steps: seq<NodeStep>, rest: seq<Chained>,
                                          out: StageResult)
    requires i < |parts| && DistinctNodes(parts) && parts[i].nodeId in links && |steps| == |rest| &&
             Answers(envs, i) && |parts| <= |envs|
    requires StoredAt(call, links[parts[i].nodeId], l', CachesIn(steps))
    requires PassResult(m, parts, links[parts[i].nodeId := l'], call, envs, i + 1, rest, out)
    ensures PassResult(m, parts, links, call, envs, i, Prepend(steps, rest), out)
  {
    hide StoredAt, PassStored, Answers, LastLogits, LeaveMet;
    LeaveMetStep(envs, i, |parts|);
    assert RowsIn(Prepend(steps, rest)) == RowsIn(rest);
    if out.result.Ok? { PassStoredStep(parts, links, l', out.links, call, steps, rest, i); }
  }

  /**
   A pass over the stages from i on takes every sequence of the call through the chain of those
   stages.  It meets a leave exactly where a stage announces one and all before it answer.
   */
  lemma {:induction false} StagesChain(m: Model, parts: seq<LayerAssignment>, hiddenSize: nat, links: Links, call: Call,
                                       input: WireInput, idss: seq<seq<nat>>, xss: seq<seq<Row>>, envs: seq<Env>,
                                       i: nat)
    requires Laid(m, parts, hiddenSize, links) && i < |parts| <= |envs| && Ready(parts, links, call, i)
    requires Sound(call) && RowsFit(call, xss) && Feeds(m, call, i, input, idss, xss)
    ensures PassResult(m, parts, links, call, envs, i, ChainsOf(m, parts, hiddenSize, links, call, xss, i),
                       Stages(m, NodeIds(parts), hiddenSize, call, input, envs, i, links))
    ensures ValidLinks(m, links)
    ensures MetLeave(m, NodeIds(parts), hiddenSize, call, input, envs, i, links) <==> LeaveMet(envs, i, |parts|)
    decreases |parts| - i
  {
    hide Laid, Ready, Sound, Feeds, ChainsOf, Stages, PassResult, Delivered, ValidWorker, CachesFrom, StageDone,
      Concat, LastLogits, NodeCached, MetLeave, LeaveMet, ValidLinks;
    StageAt(m, parts, hiddenSize, links, call, i);
    LeaveMetStep(envs, i, |parts|);
    var l, order := links[parts[i].nodeId], NodeIds(parts);
    var d := Delivered(m, l, RequestOf(call, input), envs[i]);
    var cs := ChainsOf(m, parts, hiddenSize, links, call, xss, i);
    if !Answers(envs, i) {
      StageUnanswered(m, parts, hiddenSize, links, call, input, idss, xss, envs, i);
      PassFails(m, parts, links, call, envs, i, cs, Stages(m, order, hiddenSize, call, input, envs, i, links));
    } else {
      var steps := StageServes(m, l, call, input, idss, xss, envs[i], i, i == |parts| - 1);
      var l' := Link(d.worker, []);
      StageDoneFacts(m, WeightsOf(m, l.worker.cfg), l, call, xss, i == |parts| - 1, d, steps);
      DeliveredValid(m, l, RequestOf(call, input), envs[i]);
      StagesNext(m, order, hiddenSize, call, input, envs, i, links, d);
      MetNext(m, order, hiddenSize, call, input, envs, i, links, d);
      ChainsStep(m, parts, hiddenSize, links, call, xss, i, l', steps);
      var links' := links[parts[i].nodeId := l'];
      var rest := ChainsOf(m, parts, hiddenSize, links', call, Hiddens(steps), i + 1);
      var out := Stages(m, order, hiddenSize, call, input, envs, i, links);
      if i == |parts| - 1 {
        LastStage(m, parts, hiddenSize, links', call, Hiddens(steps), envs, out);
      } else {
        FeedsNext(m, call, i + 1, idss, Hiddens(steps));
        StagesChain(m, parts, hiddenSize, links', call, WireRows(Concat(Hiddens(steps))), idss, Hiddens(steps), envs,
                    i + 1);
      }
      PassResultStep(m, parts, links, call, envs, i, l', steps, rest, out);
    }
  }

  /** A stage that does not answer: its error, or the announcement in front of its reply, ends the pass. */
  lemma {:induction false} StageUnanswered(m: Model, parts: seq<LayerAssignment>, hiddenSize: nat, links: Links,
                                           call: Call, input: WireInput, idss: seq<seq<nat>>, xss: seq<seq<Row>>,
                                           envs: seq<Env>, i: nat)
    requires Laid(m, parts, hiddenSize, links) && i < |parts| <= |envs| && Ready(parts, links, call, i)
    requires Sound(call) && RowsFit(call, xss) && Feeds(m, call, i, input, idss, xss) && !Answers(envs, i)
    ensures ValidLinks(m, links)
    ensures Stages(m, NodeIds(parts), hiddenSize, call, input, envs, i, links).result ==
            Err(if envs[i].leaves then Protocol else Pipeline)
    ensures MetLeave(m, NodeIds(parts), hiddenSize, call, input, envs, i, links) <==> envs[i].leaves
  {
    hide Laid, Ready, Sound, Feeds, Stages, Delivered, ValidWorker, CachesFrom, MetLeave, ValidLinks, NodeCached,
      StageDone;
    StageAt(m, parts, hiddenSize, links, call, i);
    var l, order := links[parts[i].nodeId], NodeIds(parts);
    var d := Delivered(m, l, RequestOf(call, input), envs[i]);
    if envs[i].leaves {
      StagesLeave(m, order, hiddenSize, call, input, envs, i, links);
      StageReplies(m, l, call, input, idss, xss, envs[i], i, i == |parts| - 1);
      LeaveIsMet(m, order, hiddenSize, call, input, envs, i, links);
    } else {
      StageFails(m, l, call, input, idss, xss, envs[i], i);
      StagesNext(m, order, hiddenSize, call, input, envs, i, links, d);
      MetNext(m, order, hiddenSize, call, input, envs, i, links, d);
    }
  }

  lemma {:induction false} LeaveIsMet(m: Model, order: seq<NodeId>, hiddenSize: nat, call: Call, input: WireInput,
                                      envs: seq<Env>, i: nat, links: Links)
    requires i < |order| <= |envs| && ValidLinks(m, links) && order[i] in links && envs[i].leaves
    requires ValidWorker(m, links[order[i]].worker) &&
             |Delivered(m, links[order[i]], RequestOf(call, input), envs[i]).outbox| > 1
    ensures MetLeave(m, order, hiddenSize, call, input, envs, i, links)
  {
    hide Delivered, Judge;
  }

  /** The reply does not depend on whether a leave is announced in front of it. */
  lemma {:induction false} StageReplies(m: Model, l: Link, call: Call, input: WireInput, idss: seq<seq<nat>>,
                                        xss: seq<seq<Row>>, env: Env, k: nat, isLast: bool)
    requires ValidWorker(m, l.worker) && l.outbox == [] && Sound(call) && Feeds(m, call, k, input, idss, xss)
    requires (l.worker.cfg.IsHead() <==> k == 0) && (l.worker.cfg.IsTail() <==> isLast)
    requires forall j :: 0 <= j < call.Count() ==> call.SeqAt(j) in call.Caches(l.worker)
    ensures |Delivered(m, l, RequestOf(call, input), env).outbox| == |Intent(env.leaves)| + 1
  {
    hide Feeds, ValidWorker, StageDone;
    WorkerRange(m, l.worker);
    if env.computeOk {
      var stays := env.(leaves := false);
      var steps := StageServes(m, l, call, input, idss, xss, stays, k, isLast);
      StageDoneFacts(m, WeightsOf(m, l.worker.cfg), l, call, xss, isLast,
                     Delivered(m, l, RequestOf(call, input), stays),
                     steps);
      SameServed(m, l.worker, RequestOf(call, input), env, stays);
    } else {
      StageFails(m, l, call, input, idss, xss, env, k);
    }
  }

  lemma {:induction false} SameServed(m: Model, w: Worker, req: Request, env: Env, stays: Env)
    requires ValidWorker(m, w) && stays == env.(leaves := false)
    ensures Serve(m, w, req, env) == Serve(m, w, req, stays)
  {
    hide Steps, NodeCached, StoreAll, HiddenRows, FlatLogits, Embed, Logits;
  }

  lemma {:induction false} PassFails(m: Model, parts: seq<LayerAssignment>, links: Links, call: Call, envs: seq<Env>,
                                     i: nat, cs: seq<Chained>, out: StageResult)
    requires i < |parts| <= |envs| && !Answers(envs, i) && Sound(call)
    requires out.result == Err(if envs[i].leaves then Protocol else Pipeline)
    requires |cs| == call.Count() && forall j :: 0 <= j < |cs| ==> |cs[j].rows| == |call.PosAt(j)|
    ensures PassResult(m, parts, links, call, envs, i, cs, out)
  {
    hide LeaveMet;
    LeaveMetStep(envs, i, |parts|);
    forall j | 0 <= j < |cs|
      ensures cs[j].rows != []
    {
      CallPositions(call, j);
    }
  }

  lemma {:induction false} StageDoneFacts(m: Model, ws: seq<Layer>, l: Link, call: Call, xss: seq<seq<Row>>,
                                          isLast: bool, d: Link, steps: seq<NodeStep>)
    requires StageDone(m, ws, l, call, xss, isLast, d, steps)
    ensures |d.outbox| == 1 && d.worker == call.With(l.worker, call.Caches(d.worker)) &&
            StoredAt(call, l, Link(d.worker, []), CachesIn(steps))
    ensures forall j :: 0 <= j < |steps| ==> steps[j].hidden != []
    ensures Judge(d.outbox[0], call, isLast, l.worker.hiddenSize) ==
      if isLast then Final(Concat(LastLogits(m, Hiddens(steps)))) else Next(WireRows(Concat(Hiddens(steps))))
  {
  }

  lemma {:induction false} DeliveredValid(m: Model, l: Link, req: Request, env: Env)
    requires ValidWorker(m, l.worker)
    ensures ValidWorker(m, Delivered(m, l, req, env).worker)
  {
  }

  lemma {:induction false} FeedsNext(m: Model, call: Call, i: nat, idss: seq<seq<nat>>, xss: seq<seq<Row>>)
    requires i > 0 && RowsFit(call, xss)
    ensures Feeds(m, call, i, WireRows(Concat(xss)), idss, xss)
  {
  }

  /** Behind the last stage the rows are what they are and nothing is left to store. */
  lemma {:induction false} LastStage(m: Model, parts: seq<LayerAssignment>, hiddenSize: nat, links: Links, call: Call,
                                     xss: seq<seq<Row>>, envs: seq<Env>, out: StageResult)
    requires Laid(m, parts, hiddenSize, links) && Ready(parts, links, call, |parts|) && RowsFit(call, xss)
    requires forall j :: 0 <= j < |xss| ==> xss[j] != []
    requires out == StageResult(Ok(Concat(LastLogits(m, xss))), links)
    ensures PassResult(m, parts, links, call, envs, |parts|,
                       ChainsOf(m, parts, hiddenSize, links, call, xss, |parts|), out)
  {
    hide Laid, LastLogits, Concat;
    var cs := ChainsOf(m, parts, hiddenSize, links, call, xss, |parts|);
    forall j | 0 <= j < |cs|
      ensures cs[j].rows == xss[j]
    {
      FitFrom(m, parts, hiddenSize, links, call, j, |parts|);
    }
    assert RowsIn(cs) == xss;
  }

  // ----- the whole model -----

  /** One of a worker's two cache maps. */
  function Side(w: Worker, paged: bool): map<SeqId, seq<KV>> {
    if paged then w.pagedHandles else w.handles
  }

  ghost predicate HeldAt(a: LayerAssignment, links: Links, paged: bool, s: SeqId) {
    a.nodeId in links && s in Side(links[a.nodeId].worker, paged)
  }

  ghost predicate HeldByAll(parts: seq<LayerAssignment>, links: Links, paged: bool, s: SeqId) {
    forall k :: 0 <= k < |parts| ==> HeldAt(parts[k], links, paged, s)
  }

  /** What all stages together have cached for a sequence, first layer first. */
  ghost function WholeCache(parts: seq<LayerAssignment>, links: Links, paged: bool, s: SeqId): seq<KV>
    requires HeldByAll(parts, links, paged, s)
  {
    Concat(StageCaches(parts, links, paged, s))
  }

  ghost function StageCaches(parts: seq<LayerAssignment>, links: Links, paged: bool, s: SeqId): (css: seq<seq<KV>>)
    requires HeldByAll(parts, links, paged, s)
    ensures |css| == |parts|
  {
    seq(|parts|, k requires 0 <= k < |parts| =>
      assert HeldAt(parts[k], links, paged, s);
      Side(links[parts[k].nodeId].worker, paged)[s])
  }

  ghost predicate Quiet(parts: seq<LayerAssignment>, links: Links) {
    forall k :: 0 <= k < |parts| ==> QuietAt(parts[k], links)
  }

  ghost predicate QuietAt(a: LayerAssignment, links: Links) {
    a.nodeId in links && links[a.nodeId].outbox == []
  }

  lemma {:induction false} ReadyIfHeld(parts: seq<LayerAssignment>, links: Links, call: Call)
    requires Quiet(parts, links) &&
             forall j :: 0 <= j < call.Count() ==> HeldByAll(parts, links, call.Batch?, call.SeqAt(j))
    ensures Ready(parts, links, call, 0)
    ensures forall j :: 0 <= j < call.Count() ==>
      CachesFrom(parts, links, call, j, 0) == StageCaches(parts, links, call.Batch?, call.SeqAt(j))
  {
    forall k | 0 <= k < |parts|
      ensures ReadyAt(parts[k], links, call)
    {
      assert QuietAt(parts[k], links);
      forall j | 0 <= j < call.Count()
        ensures call.SeqAt(j) in call.Caches(links[parts[k].nodeId].worker)
      {
        assert HeldAt(parts[k], links, call.Batch?, call.SeqAt(j));
      }
    }
  }

  /** After a pass every stage is quiet again, the call's sequences have the chains' caches, the others theirs. */
  lemma {:induction false} AfterPass(m: Model, parts: seq<LayerAssignment>, hiddenSize: nat, links: Links,
                                     links': Links, call: Call, cs: seq<Chained>)
    requires Laid(m, parts, hiddenSize, links) && ValidLinks(m, links') && |cs| == call.Count()
    requires PassStored(parts, links, links', call, cs, 0)
    ensures Laid(m, parts, hiddenSize, links') && Quiet(parts, links')
    ensures forall s :: HeldByAll(parts, links, call.Batch?, s) ==>
      HeldByAll(parts, links', call.Batch?, s) &&
      (!call.Has(s) ==> StageCaches(parts, links', call.Batch?, s) == StageCaches(parts, links, call.Batch?, s))
    ensures forall j :: 0 <= j < call.Count() ==>
      HeldByAll(parts, links', call.Batch?, call.SeqAt(j)) &&
      StageCaches(parts, links', call.Batch?, call.SeqAt(j)) == cs[j].css
  {
    hide Tiles, ValidWorker;
    forall k | 0 <= k < |parts|
      ensures LaidAt(m, parts[k], hiddenSize, links') && QuietAt(parts[k], links')
    {
      assert LaidAt(m, parts[k], hiddenSize, links);
      assert StoredAt(call, links[parts[k].nodeId], links'[parts[k].nodeId], CssAt(cs, k - 0));
    }
    forall s | HeldByAll(parts, links, call.Batch?, s)
      ensures HeldByAll(parts, links', call.Batch?, s)
      ensures !call.Has(s) ==> StageCaches(parts, links', call.Batch?, s) == StageCaches(parts, links, call.Batch?, s)
    {
      forall k | 0 <= k < |parts|
        ensures HeldAt(parts[k], links', call.Batch?, s)
        ensures !call.Has(s) ==>
          Side(links'[parts[k].nodeId].worker, call.Batch?)[s] == Side(links[parts[k].nodeId].worker, call.Batch?)[s]
      {
        assert HeldAt(parts[k], links, call.Batch?, s);
        assert StoredAt(call, links[parts[k].nodeId], links'[parts[k].nodeId], CssAt(cs, k - 0));
      }
    }
    forall j | 0 <= j < call.Count()
      ensures HeldByAll(parts, links', call.Batch?, call.SeqAt(j)) &&
              StageCaches(parts, links', call.Batch?, call.SeqAt(j)) == cs[j].css
    {
      var s := call.SeqAt(j);
      forall k | 0 <= k < |parts|
        ensures HeldAt(parts[k], links', call.Batch?, s) &&
                Side(links'[parts[k].nodeId].worker, call.Batch?)[s] == cs[j].css[k]
      {
        assert StoredAt(call, links[parts[k].nodeId], links'[parts[k].nodeId], CssAt(cs, k - 0));
      }
    }
  }

  /** A pass of the pipeline, sequence by sequence, is a pass of one node with all the layers. */
  ghost predicate WholePass(m: Model, parts: seq<LayerAssignment>, links: Links, links': Links, call: Call,
                            xss: seq<seq<Row>>, logits: seq<Row>, j: nat) {
    j < call.Count() == |logits| && RowsFit(call, xss) && xss[j] != [] &&
    HeldByAll(parts, links, call.Batch?, call.SeqAt(j)) && HeldByAll(parts, links', call.Batch?, call.SeqAt(j)) &&
    var before := WholeCache(parts, links, call.Batch?, call.SeqAt(j));
    |before| == |m.layers| && Paired(before) &&
    var step := NodeCached(m.ops, m.layers, before, xss[j], call.PosAt(j));
    logits[j] == Logits(m, step.hidden[|xss[j]| - 1]) &&
    WholeCache(parts, links', call.Batch?, call.SeqAt(j)) == step.caches
  }

  /**
   The pipeline keeps the meaning.  On quiet links, a pass over stages that tile the model
   succeeds iff no device fails and no stage announces its leave. Then the reply is the logits of
   each sequence, one after the
   other, that one node with all layers gives, the caches of the stages put together are that
   node's cache, and the other sequences have what they had.
   */
  lemma {:induction false} PassIsWhole(m: Model, parts: seq<LayerAssignment>, hiddenSize: nat, links: Links,
                                       call: Call, idss: seq<seq<nat>>, xss: seq<seq<Row>>, envs: seq<Env>)
    returns (logits: seq<Row>)
    requires Laid(m, parts, hiddenSize, links) && Quiet(parts, links) && |parts| <= |envs|
    requires forall j :: 0 <= j < call.Count() ==> HeldByAll(parts, links, call.Batch?, call.SeqAt(j))
    requires Sound(call) && RowsFit(call, xss) && Feeds(m, call, 0, WireIds(Concat(idss)), idss, xss)
    ensures |logits| == call.Count() && ValidLinks(m, links)
    ensures var out := Stages(m, NodeIds(parts), hiddenSize, call, WireIds(Concat(idss)), envs, 0, links);
            (out.result.Ok? <==> AllAnswer(envs, 0, |parts|)) &&
            (out.result.Err? ==> out.result.error == if LeaveMet(envs, 0, |parts|) then Protocol else Pipeline) &&
            (MetLeave(m, NodeIds(parts), hiddenSize, call, WireIds(Concat(idss)), envs, 0, links) <==>
               LeaveMet(envs, 0, |parts|)) &&
            (out.result.Ok? ==>
              out.result.value == Concat(logits) && Laid(m, parts, hiddenSize, out.links) && Quiet(parts, out.links) &&
              (forall j :: 0 <= j < call.Count() ==> WholePass(m, parts, links, out.links, call, xss, logits, j)) &&
              forall s :: HeldByAll(parts, links, call.Batch?, s) ==>
                HeldByAll(parts, out.links, call.Batch?, s) &&
                (!call.Has(s) ==>
                   WholeCache(parts, out.links, call.Batch?, s) == WholeCache(parts, links, call.Batch?, s)))
  {
    hide Laid, Ready, Sound, Feeds, Stages, Chain, CachesFrom, Concat, NodeCached, CachesFit, HeldByAll, Quiet,
      StageCaches, PassStored, Logits, MetLeave, LeaveMet, AllAnswer;
    ReadyIfHeld(parts, links, call);
    TilesLaid(m, parts, hiddenSize, links);
    StagesChain(m, parts, hiddenSize, links, call, WireIds(Concat(idss)), idss, xss, envs, 0);
    var cs := ChainsOf(m, parts, hiddenSize, links, call, xss, 0);
    var out := Stages(m, NodeIds(parts), hiddenSize, call, WireIds(Concat(idss)), envs, 0, links);
    logits := LastLogits(m, RowsIn(cs));
    if out.result.Ok? {
      AfterPass(m, parts, hiddenSize, links, out.links, call, cs);
      forall j | 0 <= j < call.Count()
        ensures WholePass(m, parts, links, out.links, call, xss, logits, j)
      {
        OneWhole(m, parts, hiddenSize, links, out.links, call, xss, cs, logits, j);
      }
    }
  }

  lemma {:induction false} OneWhole(m: Model, parts: seq<LayerAssignment>, hiddenSize: nat, links: Links,
                                    links': Links, call: Call, xss: seq<seq<Row>>, cs: seq<Chained>, logits: seq<Row>,
                                    j: nat)
    requires Laid(m, parts, hiddenSize, links) && Ready(parts, links, call, 0) && Sound(call) && RowsFit(call, xss) &&
             j < call.Count()
    requires cs == ChainsOf(m, parts, hiddenSize, links, call, xss, 0) && forall i :: 0 <= i < |cs| ==> cs[i].rows != []
    requires logits == LastLogits(m, RowsIn(cs))
    requires HeldByAll(parts, links, call.Batch?, call.SeqAt(j)) && HeldByAll(parts, links', call.Batch?, call.SeqAt(j))
    requires CachesFrom(parts, links, call, j, 0) == StageCaches(parts, links, call.Batch?, call.SeqAt(j))
    requires StageCaches(parts, links', call.Batch?, call.SeqAt(j)) == cs[j].css
    ensures WholePass(m, parts, links, links', call, xss, logits, j)
  {
    hide Laid, Ready, Sound, Chain, CachesFrom, Concat, NodeCached, CachesFit, HeldByAll, StageCaches, Logits;
    CallPositions(call, j);
    TilesLaid(m, parts, hiddenSize, links);
    FitFrom(m, parts, hiddenSize, links, call, j, 0);
    assert parts[0..] == parts;
    ChainIsWhole(m, parts, CachesFrom(parts, links, call, j, 0), xss[j], call.PosAt(j));
  }

  lemma {:induction false} TilesLaid(m: Model, parts: seq<LayerAssignment>, hiddenSize: nat, links: Links)
    requires Laid(m, parts, hiddenSize, links)
    ensures Tiles(parts, |m.layers|) && ValidLinks(m, links)
  {
  }

  // ----- on token ids -----

  /** Every tracked sequence is held by all stages, with the cache of the ids seen so far. */
  ghost predicate Tracks(m: Model, parts: seq<LayerAssignment>, hiddenSize: nat, links: Links, paged: bool,
                         seen: map<SeqId, seq<nat>>) {
    Laid(m, parts, hiddenSize, links) && Quiet(parts, links) &&
    forall s :: s in seen ==>
      HeldByAll(parts, links, paged, s) && HeldFor(m, WholeCache(parts, links, paged, s), seen[s])
  }

  /** The call continues each of its sequences where it stands. */
  ghost predicate Continues(seen: map<SeqId, seq<nat>>, call: Call, idss: seq<seq<nat>>) {
    |idss| == call.Count() &&
    forall j :: 0 <= j < call.Count() ==>
      call.SeqAt(j) in seen && idss[j] != [] && call.PosAt(j) == Positions(|seen[call.SeqAt(j)]|, |idss[j]|)
  }

  ghost predicate Extended(seen: map<SeqId, seq<nat>>, call: Call, idss: seq<seq<nat>>, seen': map<SeqId, seq<nat>>) {
    |idss| == call.Count() && seen'.Keys == seen.Keys &&
    (forall j :: 0 <= j < call.Count() ==>
       call.SeqAt(j) in seen && seen'[call.SeqAt(j)] == seen[call.SeqAt(j)] + idss[j]) &&
    (forall s :: s in seen && !call.Has(s) ==> seen'[s] == seen[s])
  }

  /** Reference logits of what each sequence of the call has seen, the new ids included. */
  ghost function ReferenceAll(m: Model, seen: map<SeqId, seq<nat>>, call: Call, idss: seq<seq<nat>>): (logits: seq<Row>)
    requires Continues(seen, call, idss)
    ensures |logits| == call.Count()
  {
    seq(call.Count(), j requires 0 <= j < call.Count() => ReferenceLogits(m, seen[call.SeqAt(j)] + idss[j]))
  }

  ghost function EmbedAll(m: Model, idss: seq<seq<nat>>): (xss: seq<seq<Row>>)
    ensures |xss| == |idss| && forall j :: 0 <= j < |idss| ==> xss[j] == Embed(m, idss[j])
  {
    seq(|idss|, j requires 0 <= j < |idss| => Embed(m, idss[j]))
  }

  lemma {:induction false} FeedsFirst(m: Model, seen: map<SeqId, seq<nat>>, call: Call, idss: seq<seq<nat>>)
    requires Continues(seen, call, idss)
    ensures RowsFit(call, EmbedAll(m, idss)) && Feeds(m, call, 0, WireIds(Concat(idss)), idss, EmbedAll(m, idss))
  {
  }

  lemma {:induction false} OneTracked(m: Model, parts: seq<LayerAssignment>, links: Links, links': Links, call: Call,
                                      idss: seq<seq<nat>>, logits: seq<Row>, seen: map<SeqId, seq<nat>>, j: nat)
    requires Continues(seen, call, idss) && j < call.Count() &&
             WholePass(m, parts, links, links', call, EmbedAll(m, idss), logits, j)
    requires HeldFor(m, WholeCache(parts, links, call.Batch?, call.SeqAt(j)), seen[call.SeqAt(j)])
    ensures HeldFor(m, WholeCache(parts, links', call.Batch?, call.SeqAt(j)), seen[call.SeqAt(j)] + idss[j])
    ensures logits[j] == ReferenceLogits(m, seen[call.SeqAt(j)] + idss[j])
  {
    hide NodeCached, WholeCache, ReferenceLogits, HeldFor;
    StepIsReference(m, seen[call.SeqAt(j)], idss[j], WholeCache(parts, links, call.Batch?, call.SeqAt(j)));
  }

  /**
   Runs of passes.  If the caches of the tracked sequences are those of the ids they have seen,
   a pass that continues some of them returns the reference logits of everything they have then
   seen, and the caches keep up; so after any run of passes.  It does so iff every stage computes
   and none announces its leave.
   */
  lemma {:induction false} TracksPass(m: Model, parts: seq<LayerAssignment>, hiddenSize: nat, links: Links,
                                      call: Call, idss: seq<seq<nat>>, envs: seq<Env>, seen: map<SeqId, seq<nat>>,
                                      seen': map<SeqId, seq<nat>>)
    requires Tracks(m, parts, hiddenSize, links, call.Batch?, seen) && |parts| <= |envs| && Sound(call)
    requires Continues(seen, call, idss) && Extended(seen, call, idss, seen')
    ensures ValidLinks(m, links)
    ensures var out := Stages(m, NodeIds(parts), hiddenSize, call, WireIds(Concat(idss)), envs, 0, links);
            (out.result.Ok? <==> AllAnswer(envs, 0, |parts|)) &&
            (MetLeave(m, NodeIds(parts), hiddenSize, call, WireIds(Concat(idss)), envs, 0, links) <==>
               LeaveMet(envs, 0, |parts|)) &&
            (out.result.Ok? ==>
              out.result.value == Concat(ReferenceAll(m, seen, call, idss)) &&
              Tracks(m, parts, hiddenSize, out.links, call.Batch?, seen'))
  {
    hide Laid, Quiet, Sound, Stages, Concat, HeldByAll, WholeCache, HeldFor, WholePass, RowsFit, Feeds, ReferenceLogits,
      MetLeave, LeaveMet, AllAnswer;
    TilesLaid(m, parts, hiddenSize, links);
    FeedsFirst(m, seen, call, idss);
    var logits := PassIsWhole(m, parts, hiddenSize, links, call, idss, EmbedAll(m, idss), envs);
    var out := Stages(m, NodeIds(parts), hiddenSize, call, WireIds(Concat(idss)), envs, 0, links);
    if out.result.Ok? {
      forall j | 0 <= j < call.Count()
        ensures HeldFor(m, WholeCache(parts, out.links, call.Batch?, call.SeqAt(j)), seen'[call.SeqAt(j)])
        ensures logits[j] == ReferenceAll(m, seen, call, idss)[j]
      {
        OneTracked(m, parts, links, out.links, call, idss, logits, seen, j);
      }
      assert logits == ReferenceAll(m, seen, call, idss);
      forall s | s in seen'
        ensures HeldByAll(parts, out.links, call.Batch?, s) &&
                HeldFor(m, WholeCache(parts, out.links, call.Batch?, s), seen'[s])
      {
      }
    }
  }

  // ----- passes that fail -----

  /** A stage after a message of the call: still laid out, and the sequences outside the call are as before. */
  ghost predicate StageKept(call: Call, w: Worker, w': Worker) {
    w'.cfg == w.cfg && w'.hiddenSize == w.hiddenSize && call.Caches(w').Keys == call.Caches(w).Keys &&
    forall t :: t in call.Caches(w) && !call.Has(t) ==> call.Caches(w')[t] == call.Caches(w)[t]
  }

  lemma {:induction false} StageTouches(m: Model, l: Link, call: Call, input: WireInput, env: Env)
    requires ValidWorker(m, l.worker) && l.outbox == [] && Sound(call)
    ensures var d := Delivered(m, l, RequestOf(call, input), env);
            |Intent(env.leaves)| <= |d.outbox| <= |Intent(env.leaves)| + 1 &&
            (env.leaves ==> d.outbox[0] == LeaveIntent) && StageKept(call, l.worker, d.worker)
  {
    hide NodeCached, Logits, Embed, FlatLogits, HiddenRows, Steps;
    assert Strip([]) == [];
    var served := Serve(m, l.worker, RequestOf(call, input), env);
    assert |served.replies| <= 1;
    if served.replies != [] { OneReply(served.replies[0]); }
    match call {
      case Single(s, ps) =>
        assert call.SeqAt(0) == s && call.Has(s);
      case Batch(metas) =>
        BatchTouches(m, l.worker, metas, input, env);
    }
  }

  lemma {:induction false} BatchTouches(m: Model, w: Worker, metas: seq<SequenceMeta>, input: WireInput, env: Env)
    requires ValidWorker(m, w) && DistinctSeqs(metas)
    ensures StageKept(Batch(metas), w, ServeBatch(m, w, metas, input, env).worker)
  {
    hide NodeCached, Logits, Embed, FlatLogits, HiddenRows, Steps, StoreAll;
    var call, served := Batch(metas), ServeBatch(m, w, metas, input, env);
    forall t | !call.Has(t)
      ensures t !in BatchIds(metas) && forall j :: 0 <= j < |metas| ==> metas[j].seqId != t
    {
      assert forall j :: 0 <= j < |metas| ==> call.SeqAt(j) == metas[j].seqId;
    }
    if AllCached(w.pagedHandles, metas) && !(input.WireIds? && TotalTokens(metas) > |input.ids|) && metas != [] &&
       input.WireIds? == w.cfg.IsHead() {
      var rows := if input.WireIds? then Embed(m, input.ids[..TotalTokens(metas)]) else input.rows;
      if env.computeOk && |rows| == TotalPositions(metas) {
        var steps := Steps(m.ops, WeightsOf(m, w.cfg), w.pagedHandles, metas, rows);
        StoredOwn(w.pagedHandles, metas, steps);
        StoreKeeps(w.cfg, w.pagedHandles, metas, steps);
      }
    }
  }

  /** Every stage has kept the sequences outside the call. */
  ghost predicate OthersKept(parts: seq<LayerAssignment>, links: Links, links': Links, call: Call) {
    links'.Keys == links.Keys &&
    forall k :: 0 <= k < |parts| && parts[k].nodeId in links ==>
      StageKept(call, links[parts[k].nodeId].worker, links'[parts[k].nodeId].worker)
  }

  lemma {:induction false} KeptTwice(parts: seq<LayerAssignment>, a: Links, b: Links, c: Links, call: Call)
    requires OthersKept(parts, a, b, call) && OthersKept(parts, b, c, call)
    ensures OthersKept(parts, a, c, call)
  {
    forall k | 0 <= k < |parts| && parts[k].nodeId in a
      ensures StageKept(call, a[parts[k].nodeId].worker, c[parts[k].nodeId].worker)
    {
      var id := parts[k].nodeId;
      assert StageKept(call, a[id].worker, b[id].worker) && StageKept(call, b[id].worker, c[id].worker);
    }
  }

  /** One stage served and its first message, if any, read. */
  lemma {:induction false} KeptOnce(m: Model, parts: seq<LayerAssignment>, hiddenSize: nat, links: Links, call: Call,
                                    i: nat, l': Link)
    requires Laid(m, parts, hiddenSize, links) && Quiet(parts, links) && i < |parts| && parts[i].nodeId in links
    requires ValidWorker(m, l'.worker) && StageKept(call, links[parts[i].nodeId].worker, l'.worker)
    ensures var links' := links[parts[i].nodeId := l'];
            Laid(m, parts, hiddenSize, links') && (Quiet(parts, links') <==> l'.outbox == []) &&
            OthersKept(parts, links, links', call)
  {
    hide Tiles, ValidWorker;
    var links' := links[parts[i].nodeId := l'];
    forall k | 0 <= k < |parts|
      ensures LaidAt(m, parts[k], hiddenSize, links') && (QuietAt(parts[k], links') <==> k != i || l'.outbox == [])
    {
      assert LaidAt(m, parts[k], hiddenSize, links) && QuietAt(parts[k], links);
    }
  }

  /**
   A pass, whether it succeeds or fails, touches no sequence outside the call.  It leaves the
   stages without unread replies iff it has not reached one that announces its leave.
   */
  lemma {:induction false} StagesKeep(m: Model, parts: seq<LayerAssignment>, hiddenSize: nat, links: Links,
                                      call: Call, input: WireInput, envs: seq<Env>, i: nat)
    requires Laid(m, parts, hiddenSize, links) && Quiet(parts, links) && Sound(call) && i <= |parts| <= |envs|
    ensures ValidLinks(m, links)
    ensures var out := Stages(m, NodeIds(parts), hiddenSize, call, input, envs, i, links);
            Laid(m, parts, hiddenSize, out.links) && OthersKept(parts, links, out.links, call) &&
            (Quiet(parts, out.links) <==> !MetLeave(m, NodeIds(parts), hiddenSize, call, input, envs, i, links))
    decreases |parts| - i
  {
    hide Laid, Quiet, Sound, OthersKept, Delivered, ValidWorker, StageKept, Judge;
    TilesLaid(m, parts, hiddenSize, links);
    NothingTouched(parts, links, call);
    if i < |parts| {
      OneStage(m, parts, hiddenSize, links, i);
      var l := links[parts[i].nodeId];
      var d := Delivered(m, l, RequestOf(call, input), envs[i]);
      StageTouches(m, l, call, input, envs[i]);
      DeliveredValid(m, l, RequestOf(call, input), envs[i]);
      var l' := Link(d.worker, if d.outbox == [] then [] else d.outbox[1..]);
      KeptOnce(m, parts, hiddenSize, links, call, i, l');
      var links' := links[parts[i].nodeId := l'];
      if d.outbox == [] {
        assert d == l';
      } else if envs[i].leaves {
        LeaveJudged(call, i == |parts| - 1, hiddenSize);
      } else {
        assert d.outbox[1..] == [];
        match Judge(d.outbox[0], call, i == |parts| - 1, hiddenSize)
        case Fail(_) =>
        case Final(_) =>
        case Next(next) =>
          StagesKeep(m, parts, hiddenSize, links', call, next, envs, i + 1);
          KeptTwice(parts, links, links',
                    Stages(m, NodeIds(parts), hiddenSize, call, next, envs, i + 1, links').links, call);
      }
    }
  }

  lemma {:induction false} LeaveJudged(call: Call, isLast: bool, hiddenSize: nat)
    ensures Judge(LeaveIntent, call, isLast, hiddenSize) == Fail(Protocol)
  {
  }

  lemma {:induction false} NothingTouched(parts: seq<LayerAssignment>, links: Links, call: Call)
    ensures OthersKept(parts, links, links, call)
  {
  }

  lemma {:induction false} OneStage(m: Model, parts: seq<LayerAssignment>, hiddenSize: nat, links: Links, i: nat)
    requires Laid(m, parts, hiddenSize, links) && Quiet(parts, links) && i < |parts|
    ensures parts[i].nodeId in links && ValidWorker(m, links[parts[i].nodeId].worker) &&
            links[parts[i].nodeId].outbox == []
  {
    assert LaidAt(m, parts[i], hiddenSize, links) && QuietAt(parts[i], links);
  }

  /** What is known of the sequences outside the call. */
  ghost function Outside(seen: map<SeqId, seq<nat>>, call: Call): map<SeqId, seq<nat>> {
    map s | s in seen && !call.Has(s) :: seen[s]
  }

  /**
   After any pass, failed or not, the sequences outside the call are tracked as before iff the
   pass has not reached a stage that announces its leave; all are still held by all stages.
   */
  lemma {:induction false} TracksOutside(m: Model, parts: seq<LayerAssignment>, hiddenSize: nat, links: Links,
                                         call: Call, input: WireInput, envs: seq<Env>, seen: map<SeqId, seq<nat>>)
    requires Tracks(m, parts, hiddenSize, links, call.Batch?, seen) && Sound(call) && |parts| <= |envs|
    ensures ValidLinks(m, links)
    ensures var out := Stages(m, NodeIds(parts), hiddenSize, call, input, envs, 0, links);
            (Tracks(m, parts, hiddenSize, out.links, call.Batch?, Outside(seen, call)) <==>
               !MetLeave(m, NodeIds(parts), hiddenSize, call, input, envs, 0, links)) &&
            (Quiet(parts, out.links) <==> !MetLeave(m, NodeIds(parts), hiddenSize, call, input, envs, 0, links)) &&
            forall s :: s in seen ==> HeldByAll(parts, out.links, call.Batch?, s)
  {
    hide Laid, Quiet, Sound, Stages, HeldFor, Concat, MetLeave;
    StagesKeep(m, parts, hiddenSize, links, call, input, envs, 0);
    var out := Stages(m, NodeIds(parts), hiddenSize, call, input, envs, 0, links);
    forall s | s in seen
      ensures HeldByAll(parts, out.links, call.Batch?, s)
      ensures !call.Has(s) ==>
        StageCaches(parts, out.links, call.Batch?, s) == StageCaches(parts, links, call.Batch?, s)
    {
      forall k | 0 <= k < |parts|
        ensures HeldAt(parts[k], out.links, call.Batch?, s)
        ensures !call.Has(s) ==>
          Side(out.links[parts[k].nodeId].worker, call.Batch?)[s] == Side(links[parts[k].nodeId].worker, call.Batch?)[s]
      {
        assert HeldAt(parts[k], links, call.Batch?, s);
        assert StageKept(call, links[parts[k].nodeId].worker, out.links[parts[k].nodeId].worker);
      }
    }
  }
}
