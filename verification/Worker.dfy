/**
 A worker's serve loop: what each message from the coordinator does to its caches and what it
 replies.  The forward computations are the cached form that the engines compute.
 */
module WorkerProtocol {
  import opened Core
  import opened Transformer
  import opened Nodes

  type SeqId = nat

  /** A sequence's entry in a batched request. */
  datatype SequenceMeta = SequenceMeta(seqId: SeqId, positions: seq<nat>, numTokens: nat)

  datatype WireInput = WireIds(ids: seq<nat>) | WireRows(rows: seq<Row>)

  /** What a heartbeat ack carries: the nonce it echoes and the worker's free blocks. */
  datatype Beat = Beat(nonce: nat, freeBlocks: nat)

  datatype Request =
    | Forward(seqId: SeqId, positions: seq<nat>, input: WireInput)
    | BatchedForward(metas: seq<SequenceMeta>, input: WireInput)
    | CacheAlloc(seqId: SeqId)
    | CacheFree(seqId: SeqId)
    | Reconfigure(start: nat, end: nat, total: nat)
    | Heartbeat(beat: Beat)
    | Shutdown

  datatype Reply =
    | RowsReply(rows: seq<Row>, lastDim: nat, batched: bool)
    | LogitsReply(logits: Row, batched: bool)
    | CacheAllocAck
    | ErrorReply
    | WorkerReady
    | HeartbeatAck(beat: Beat)
    | LeaveIntent

  /**
   What the device decides while a message is handled, the heartbeats the worker answers before
   and after it, and whether it announces first that it is going to leave.  `spoiled` is what a
   failed pass leaves in the caches.
   */
  datatype Env = Env(
    contiguousOk: bool,
    pagedOk: bool,
    computeOk: bool,
    spoiled: map<SeqId, seq<KV>>,
    acksBefore: seq<Beat>,
    acksAfter: seq<Beat>,
    leaves: bool)

  /** Both caches of a worker, by sequence. */
  datatype Worker = Worker(
    cfg: NodeConfig,
    hiddenSize: nat,
    handles: map<SeqId, seq<KV>>,
    pagedHandles: map<SeqId, seq<KV>>)

  datatype Served = Served(worker: Worker, replies: seq<Reply>)

  /** A cache per layer of the node. */
  predicate Shaped(cfg: NodeConfig, cs: seq<KV>) {
    cfg.start + |cs| == cfg.end && Paired(cs)
  }

  ghost predicate ValidWorker(m: Model, w: Worker) {
    w.cfg.Valid() && w.cfg.total == |m.layers| &&
    (forall s :: s in w.handles ==> Shaped(w.cfg, w.handles[s])) &&
    (forall s :: s in w.pagedHandles ==> Shaped(w.cfg, w.pagedHandles[s])) &&
    w.handles.Keys == w.pagedHandles.Keys
  }

  function EmptyCache(cfg: NodeConfig): (cs: seq<KV>)
    requires cfg.Valid()
    ensures Shaped(cfg, cs) && CachesHold(cs, 0)
  {
    seq(cfg.NumLayers(), _ => EMPTY_KV)
  }

  function WeightsOf(m: Model, cfg: NodeConfig): (ws: seq<Layer>)
    requires cfg.Valid() && cfg.total == |m.layers|
    ensures cfg.start + |ws| == cfg.end
  {
    m.layers[cfg.start..cfg.end]
  }

  /** The caches after a pass over the sequences `ids` that failed half way; those of other sequences are untouched. */
  function Spoilt(cfg: NodeConfig, caches: map<SeqId, seq<KV>>, ids: set<SeqId>, env: Env): map<SeqId, seq<KV>> {
    map s | s in caches :: if s in ids && s in env.spoiled &&
    Shaped(cfg, env.spoiled[s]) then env.spoiled[s] else caches[s]
  }

  // ----- one sequence -----

  /** The rows a pass starts from, unless the input does not fit the role. */
  function Resolve(m: Model, cfg: NodeConfig, input: WireInput): Result<seq<Row>> {
    match input
    case WireIds(ids) => if !cfg.IsHead() then Err(Pipeline) else if ids == [] then Err(InvalidShape)
      else Ok(Embed(m, ids))
    case WireRows(rows) => if cfg.IsHead() then Err(Pipeline) else Ok(rows)
  }

  function ServeForward(m: Model, w: Worker, s: SeqId, ps: seq<nat>, input: WireInput, env: Env): Served
    requires ValidWorker(m, w)
  {
    var rows := Resolve(m, w.cfg, input);
    if s !in w.handles || rows.Err? then Served(w, [ErrorReply])
    else if !env.computeOk || |rows.value| != |ps| || ps == [] then
      Served(w.(handles := w.handles[s := Spoilt(w.cfg, w.handles, {s}, env)[s]]), [ErrorReply])
    else
      var step := NodeCached(m.ops, WeightsOf(m, w.cfg), w.handles[s], rows.value, ps);
      Served(w.(handles := w.handles[s := step.caches]),
             [if w.cfg.IsTail() then LogitsReply(Logits(m, step.hidden[|ps| - 1]), false)
              else RowsReply(step.hidden, w.hiddenSize, false)])
  }

  // ----- several sequences -----

  function TotalPositions(metas: seq<SequenceMeta>): nat {
    if metas == [] then 0 else |metas[0].positions| + TotalPositions(metas[1..])
  }

  function TotalTokens(metas: seq<SequenceMeta>): nat {
    if metas == [] then 0 else metas[0].numTokens + TotalTokens(metas[1..])
  }

  predicate AllCached(paged: map<SeqId, seq<KV>>, metas: seq<SequenceMeta>) {
    forall i :: 0 <= i < |metas| ==> metas[i].seqId in paged
  }

  function BatchIds(metas: seq<SequenceMeta>): set<SeqId> {
    set i | 0 <= i < |metas| :: metas[i].seqId
  }

  /** Each sequence's rows through the node's layers, on that sequence's own cache. */
  function Steps(o: Ops, ws: seq<Layer>, paged: map<SeqId, seq<KV>>, metas: seq<SequenceMeta>,
                 rows: seq<Row>): (steps: seq<NodeStep>)
    requires AllCached(paged, metas) && |rows| == TotalPositions(metas)
    requires forall s :: s in paged ==> |paged[s]| == |ws| && Paired(paged[s])
    ensures |steps| == |metas|
    ensures forall i :: 0 <= i < |metas| ==>
      |steps[i].hidden| == |metas[i].positions| && |steps[i].caches| == |ws| && Paired(steps[i].caches)
    decreases |metas|
  {
    if metas == [] then []
    else
      var n := |metas[0].positions|;
      [NodeCached(o, ws, paged[metas[0].seqId], rows[..n], metas[0].positions)]
      + Steps(o, ws, paged, metas[1..], rows[n..])
  }

  function HiddenRows(steps: seq<NodeStep>): seq<Row> {
    if steps == [] then [] else steps[0].hidden + HiddenRows(steps[1..])
  }

  function StoreAll(paged: map<SeqId, seq<KV>>, metas: seq<SequenceMeta>, steps: seq<NodeStep>): map<SeqId, seq<KV>>
    requires |metas| == |steps|
    decreases |metas|
  {
    if metas == [] then paged else StoreAll(paged[metas[0].seqId := steps[0].caches], metas[1..], steps[1..])
  }

  /** Logits of the row before the end of every sequence's rows, in one list. */
  function FlatLogits(m: Model, metas: seq<SequenceMeta>, rows: seq<Row>, offset: nat): Row
    requires offset + TotalPositions(metas) <= |rows|
    decreases |metas|
  {
    if metas == [] then []
    else
      var end := offset + |metas[0].positions|;
      (if end == 0 then [] else Logits(m, rows[end - 1])) + FlatLogits(m, metas[1..], rows, end)
  }

  /** `handle_batched_forward`, for batches that hold a sequence at most once. */
  function ServeBatch(m: Model, w: Worker, metas: seq<SequenceMeta>, input: WireInput, env: Env): Served
    requires ValidWorker(m, w)
  {
    if !AllCached(w.pagedHandles, metas) then Served(w, [ErrorReply])
    // Slicing the ids past their end stops the worker.
    else if input.WireIds? && TotalTokens(metas) > |input.ids| then Served(w, [])
    else if metas == [] || input.WireIds? != w.cfg.IsHead() then Served(w, [ErrorReply])
    else
      var rows := if input.WireIds? then Embed(m, input.ids[..TotalTokens(metas)]) else input.rows;
      if !env.computeOk || |rows| != TotalPositions(metas) then
        Served(w.(pagedHandles := Spoilt(w.cfg, w.pagedHandles, BatchIds(metas), env)), [ErrorReply])
      else
        var steps := Steps(m.ops, WeightsOf(m, w.cfg), w.pagedHandles, metas, rows);
        var out := HiddenRows(steps);
        HiddenLength(metas, steps);
        Served(w.(pagedHandles := StoreAll(w.pagedHandles, metas, steps)),
               [if w.cfg.IsTail() then LogitsReply(FlatLogits(m, metas, out, 0), true)
                else RowsReply(out, w.hiddenSize, true)])
  }

  lemma {:induction false} HiddenLength(metas: seq<SequenceMeta>, steps: seq<NodeStep>)
    requires |metas| == |steps| && forall i :: 0 <= i < |metas| ==> |steps[i].hidden| == |metas[i].positions|
    ensures |HiddenRows(steps)| == TotalPositions(metas)
    decreases |metas|
  {
    if metas != [] { HiddenLength(metas[1..], steps[1..]); }
  }

  // ----- the serve loop -----

  function Serve(m: Model, w: Worker, req: Request, env: Env): Served
    requires ValidWorker(m, w)
  {
    match req
    case Forward(s, ps, input) => ServeForward(m, w, s, ps, input, env)
    case BatchedForward(metas, input) => ServeBatch(m, w, metas, input, env)
    case CacheAlloc(s) =>
      if s in w.handles || !env.contiguousOk || !env.pagedOk then Served(w, [ErrorReply])
      else
        Served(w.(handles := w.handles[s := EmptyCache(w.cfg)],
                  pagedHandles := w.pagedHandles[s := EmptyCache(w.cfg)]), [CacheAllocAck])
    case CacheFree(s) =>
      if s in w.handles then Served(w.(handles := w.handles - {s}, pagedHandles := w.pagedHandles - {s}), [])
      else Served(w, [ErrorReply])
    case Reconfigure(start, end, total) =>
      var cfg := NewNodeConfig(start, end, total);
      // A range that is refused, or one of another model, stops the worker.
      if cfg.Err? || total != |m.layers| then Served(w.(handles := map[], pagedHandles := map[]), [])
      else Served(w.(cfg := cfg.value, handles := map[], pagedHandles := map[]), [WorkerReady])
    case Heartbeat(beat) => Served(w, [HeartbeatAck(beat)])
    case Shutdown => Served(w.(handles := map[], pagedHandles := map[]), [])
  }

  lemma {:induction false} StoreKeeps(cfg: NodeConfig, paged: map<SeqId, seq<KV>>, metas: seq<SequenceMeta>,
                                      steps: seq<NodeStep>)
    requires |metas| == |steps| && AllCached(paged, metas)
    requires forall s :: s in paged ==> Shaped(cfg, paged[s])
    requires forall i :: 0 <= i < |steps| ==> Shaped(cfg, steps[i].caches)
    ensures StoreAll(paged, metas, steps).Keys == paged.Keys
    ensures forall s :: s in paged ==> Shaped(cfg, StoreAll(paged, metas, steps)[s])
    decreases |metas|
  {
    if metas != [] {
      var s := metas[0].seqId;
      assert s in paged;
      StoreKeeps(cfg, paged[s := steps[0].caches], metas[1..], steps[1..]);
    }
  }

  /** The contiguous and the paged map have the same keys after every message, whatever the device decides. */
  lemma {:induction false} ServeKeeps(m: Model, w: Worker, req: Request, env: Env)
    requires ValidWorker(m, w)
    ensures ValidWorker(m, Serve(m, w, req, env).worker)
  {
    if req.BatchedForward? && AllCached(w.pagedHandles, req.metas) {
      var input, metas := req.input, req.metas;
      if metas != [] && !(input.WireIds? && TotalTokens(metas) > |input.ids|) && input.WireIds? == w.cfg.IsHead() {
        var rows := if input.WireIds? then Embed(m, input.ids[..TotalTokens(metas)]) else input.rows;
        if env.computeOk && |rows| == TotalPositions(metas) {
          StoreKeeps(w.cfg, w.pagedHandles, metas, Steps(m.ops, WeightsOf(m, w.cfg), w.pagedHandles, metas, rows));
        }
      }
    }
  }

  /** The sequences that a message can add to a worker. */
  function Requested(req: Request): set<SeqId> {
    if req.CacheAlloc? then {req.seqId} else {}
  }

  /** A worker never holds a sequence that it was not asked to allocate. */
  lemma {:induction false} ServeHolds(m: Model, w: Worker, req: Request, env: Env)
    requires ValidWorker(m, w)
    ensures var w' := Serve(m, w, req, env).worker;
            w'.hiddenSize == w.hiddenSize && w'.handles.Keys <= w.handles.Keys + Requested(req)
  {
    hide Shaped;
  }

  // ----- message after message -----

  /**
   A sequence that is not held and for which both allocators have room is acknowledged and held,
   empty, in both maps.  A second request for it is refused; freeing it undoes the first.
   */
  lemma {:induction false} AllocThenFree(m: Model, w: Worker, s: SeqId, env: Env, env': Env)
    requires ValidWorker(m, w) && s !in w.handles && env.contiguousOk && env.pagedOk
    ensures var served := Serve(m, w, CacheAlloc(s), env);
            var held := served.worker;
            served.replies == [CacheAllocAck] && ValidWorker(m, held) &&
            s in held.handles && CachesHold(held.handles[s], 0) &&
            s in held.pagedHandles && CachesHold(held.pagedHandles[s], 0) &&
            Serve(m, held, CacheAlloc(s), env') == Served(held, [ErrorReply]) &&
            Serve(m, held, CacheFree(s), env') == Served(w, [])
  {
    ServeKeeps(m, w, CacheAlloc(s), env);
    var held := Serve(m, w, CacheAlloc(s), env).worker;
    assert held.handles - {s} == w.handles && held.pagedHandles - {s} == w.pagedHandles;
  }

  /** Without room for both caches an allocation is refused and leaves nothing. */
  lemma {:induction false} NoRoomRefused(m: Model, w: Worker, s: SeqId, env: Env)
    requires ValidWorker(m, w) && !(env.contiguousOk && env.pagedOk)
    ensures Serve(m, w, CacheAlloc(s), env) == Served(w, [ErrorReply])
  {
  }

  /** A sequence that is not held is refused whatever is asked of it, and nothing changes. */
  lemma {:induction false} NotHeldRefused(m: Model, w: Worker, s: SeqId, ps: seq<nat>, metas: seq<SequenceMeta>,
                                          input: WireInput, env: Env)
    requires ValidWorker(m, w) && s !in w.handles
    ensures Serve(m, w, CacheFree(s), env) == Served(w, [ErrorReply])
    ensures Serve(m, w, Forward(s, ps, input), env) == Served(w, [ErrorReply])
    ensures s in BatchIds(metas) ==> Serve(m, w, BatchedForward(metas, input), env) == Served(w, [ErrorReply])
  {
    if s in BatchIds(metas) {
      var i :| 0 <= i < |metas| && metas[i].seqId == s;
      assert s !in w.pagedHandles;
      assert !AllCached(w.pagedHandles, metas);
    }
  }

  /**
   After a reconfiguration nothing is held.  The worker is ready for the new layers iff they are a
   range of the model's; otherwise it says nothing.
   */
  lemma {:induction false} ReconfiguredForgets(m: Model, w: Worker, start: nat, end: nat, total: nat, env: Env)
    requires ValidWorker(m, w)
    ensures var served := Serve(m, w, Reconfigure(start, end, total), env);
            served.worker.handles == map[] && served.worker.pagedHandles == map[] &&
            ValidWorker(m, served.worker) &&
            if start < end <= total == |m.layers| then
              served.replies == [WorkerReady] && WeightsOf(m, served.worker.cfg) == m.layers[start..end]
            else served.replies == [] && served.worker.cfg == w.cfg
  {
  }

  /** What a device makes of a heartbeat goes back as it came; the order to shut down leaves nothing held. */
  lemma {:induction false} BeatAndShutdown(m: Model, w: Worker, beat: Beat, env: Env)
    requires ValidWorker(m, w)
    ensures Serve(m, w, Heartbeat(beat), env) == Served(w, [HeartbeatAck(beat)])
    ensures var served := Serve(m, w, Shutdown, env);
            served.replies == [] && served.worker.handles == map[] && served.worker.pagedHandles == map[]
  {
  }

  /**
   A forward message on a sequence that is held is answered with rows or logits iff the input is
   what the node's place asks for, as many rows as positions and at least one, and the device
   computes.  Then the sequence holds that many rows more.  No other sequence is touched, nor the
   paged caches.
   */
  lemma {:induction false} ForwardAnswered(m: Model, w: Worker, s: SeqId, ps: seq<nat>, input: WireInput, env: Env,
                                           n: nat)
    requires ValidWorker(m, w) && s in w.handles && CachesHold(w.handles[s], n)
    ensures var served := Serve(m, w, Forward(s, ps, input), env);
            var rows := if input.WireIds? then |input.ids| else |input.rows|;
            |served.replies| == 1 && served.worker.pagedHandles == w.pagedHandles &&
            served.worker.handles.Keys == w.handles.Keys &&
            (forall t :: t in w.handles && t != s ==> served.worker.handles[t] == w.handles[t]) &&
            if input.WireIds? == (w.cfg.start == 0) && rows == |ps| > 0 && env.computeOk then
              CachesHold(served.worker.handles[s], n + |ps|) &&
              if w.cfg.end == |m.layers| then served.replies[0].LogitsReply? && !served.replies[0].batched
              else
                served.replies[0].RowsReply? && !served.replies[0].batched &&
                |served.replies[0].rows| == |ps| && served.replies[0].lastDim == w.hiddenSize
            else served.replies[0] == ErrorReply
  {
    hide NodeCached, Logits;
    assert Shaped(w.cfg, w.handles[s]);
    var rows := Resolve(m, w.cfg, input);
    if rows.Ok? && env.computeOk && |rows.value| == |ps| && ps != [] {
      CachesGrow(m.ops, WeightsOf(m, w.cfg), w.handles[s], rows.value, ps, n);
    }
  }

  /**
   A batch of sequences that are all held: it stops the worker iff its tokens are more than the ids
   that came with it.  Otherwise it is answered with rows or logits iff it is not empty, the input
   is what the node's place asks for, there are as many rows as positions, and the device computes.
   The contiguous caches are not touched.
   */
  lemma {:induction false} BatchAnswered(m: Model, w: Worker, metas: seq<SequenceMeta>, input: WireInput, env: Env)
    requires ValidWorker(m, w) && BatchIds(metas) <= w.handles.Keys
    ensures var served := Serve(m, w, BatchedForward(metas, input), env);
            var rows := if input.WireIds? then TotalTokens(metas) else |input.rows|;
            served.worker.handles == w.handles && |served.replies| <= 1 &&
            (served.replies == [] <==> input.WireIds? && TotalTokens(metas) > |input.ids|) &&
            (served.replies != [] && served.replies[0] != ErrorReply <==>
               served.replies != [] && metas != [] && input.WireIds? == (w.cfg.start == 0) &&
               rows == TotalPositions(metas) && env.computeOk) &&
            (served.replies != [] && served.replies[0] != ErrorReply ==>
               if w.cfg.end == |m.layers| then served.replies[0].LogitsReply? && served.replies[0].batched
               else
                 served.replies[0].RowsReply? && served.replies[0].batched &&
                 |served.replies[0].rows| == TotalPositions(metas) && served.replies[0].lastDim == w.hiddenSize)
  {
    hide StoreAll, Steps, FlatLogits, Shaped;
    assert AllCached(w.pagedHandles, metas) by {
      forall i | 0 <= i < |metas|
        ensures metas[i].seqId in w.pagedHandles
      {
        assert metas[i].seqId in BatchIds(metas);
      }
    }
    var rows := if input.WireRows? then input.rows
                else if TotalTokens(metas) > |input.ids| then []
                else Embed(m, input.ids[..TotalTokens(metas)]);
    if |rows| == TotalPositions(metas) {
      RowsOfSteps(m, w, metas, rows);
    }
  }

  lemma {:induction false} RowsOfSteps(m: Model, w: Worker, metas: seq<SequenceMeta>, rows: seq<Row>)
    requires ValidWorker(m, w) && AllCached(w.pagedHandles, metas) && |rows| == TotalPositions(metas)
    ensures |HiddenRows(Steps(m.ops, WeightsOf(m, w.cfg), w.pagedHandles, metas, rows))| == TotalPositions(metas)
  {
    HiddenLength(metas, Steps(m.ops, WeightsOf(m, w.cfg), w.pagedHandles, metas, rows));
  }

  function ServeAll(m: Model, w: Worker, reqs: seq<(Request, Env)>): (w': Worker)
    requires ValidWorker(m, w)
    ensures ValidWorker(m, w')
    decreases |reqs|
  {
    if reqs == [] then w
    else
      ServeKeeps(m, w, reqs[0].0, reqs[0].1);
      ServeAll(m, Serve(m, w, reqs[0].0, reqs[0].1).worker, reqs[1..])
  }
}
