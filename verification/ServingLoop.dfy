/**
 The scheduler loop on a cluster: iterations that take in requests, react to dead, leaving and
 joining workers, admit, and run batches over the pipeline.
 */
module ServingLoop {
  import opened Core
  import opened Transformer
  import opened PipelineLayout
  import opened BatchWire
  import opened DistributedPipelines
  import opened PipelineMeaning
  import opened Coordination
  import opened Registry
  import opened DistributedScheduling
  import Heartbeats
  import W = WorkerProtocol
  import LayerScheduler
  import Rebalance

  type Env = W.Env
  type SeqId = W.SeqId

  /**
   What the workers do with the messages of one iteration: an allocation, taking it back, a pass,
   the release of a sequence, and layers to run or the order to shut down.
   */
  datatype Envs = Envs(
    alloc: NodeId -> Env,
    back: NodeId -> Env,
    pass: NodeId -> Env,
    free: SeqId -> NodeId -> Env,
    told: NodeId -> Env)

  /** How waiting without work ends. */
  datatype Wake = Arrival(request: Request) | Closed | Timer | Replaced(parts: seq<LayerAssignment>)

  /** A heartbeat that is due: its nonce, and the free blocks that the workers report which ack it. */
  datatype Beats = Beats(nonce: nat, answers: map<NodeId, nat>)

  /**
   What one iteration finds: a pipeline built elsewhere, the requests in the channel and whether
   it is closed, the workers that have announced their leave since the last message, the
   heartbeat if one is due, how a wait ends, and what the workers do.
   */
  datatype Tick = Tick(
    swap: Option<seq<LayerAssignment>>,
    arrivals: seq<Request>,
    closed: bool,
    announced: set<NodeId>,
    beats: Option<Beats>,
    wake: Wake,
    envs: Envs)

  datatype Config = Config(
    model: Option<LayerScheduler.ModelConfig>,
    mode: LayerScheduler.Mode,
    maxSeqLen: nat,
    minFreeBlocksReserve: nat,
    maxMissed: nat)
  {
    predicate Valid() { model.Some? ==> model.value.numLayers > 0 || mode != LayerScheduler.Manual([]) }
  }

  function Incoming(t: Tick): seq<Request> {
    if t.wake.Arrival? then t.arrivals + [t.wake.request] else t.arrivals
  }

  ghost function IdsIn(rs: seq<Request>): set<SeqId> {
    set i | 0 <= i < |rs| :: rs[i].seqId
  }

  // ----- the loop and its pipeline -----

  /** The workers hold, for every active sequence, the caches of what the loop has fed it. */
  ghost predicate Intact(loop: DistributedLoop, pipeline: DistributedPipeline, cluster: Cluster,
                         parts: seq<LayerAssignment>, v: nat)
    reads loop, pipeline, cluster
  {
    loop.model == cluster.m && VocabSize(cluster.m, v) && loop.limits.maxPrefillTokens > 0 &&
    pipeline.Serving(cluster, parts, true, loop.Fed())
  }

  /** The workers are laid out and hold the caches of what has been seen; only something may be unread. */
  ghost predicate Keeps(m: Model, order: seq<NodeId>, hiddenSize: nat, known: set<SeqId>, links: Links,
                        parts: seq<LayerAssignment>, seen: map<SeqId, seq<nat>>) {
    order == NodeIds(parts) && seen.Keys <= known && Laid(m, parts, hiddenSize, CleanAll(links)) &&
    forall s :: s in seen ==>
      HeldByAll(parts, CleanAll(links), true, s) && HeldFor(m, WholeCache(parts, CleanAll(links), true, s), seen[s])
  }

  /** Nothing but heartbeat acks is unread. */
  predicate NothingUnread(links: Links, order: seq<NodeId>) {
    forall id :: id in order ==> id in links && AllAcks(links[id].outbox)
  }

  predicate AllAcks(outbox: seq<W.Reply>) {
    forall i :: 0 <= i < |outbox| ==> outbox[i].HeartbeatAck?
  }

  lemma {:induction false} OnlyAcks(outbox: seq<W.Reply>)
    ensures Strip(outbox) == [] <==> AllAcks(outbox)
  {
    if outbox != [] {
      OnlyAcks(outbox[1..]);
      assert forall i :: 0 <= i < |outbox[1..]| ==> outbox[1..][i] == outbox[i + 1];
      if forall i :: 0 <= i < |outbox[1..]| ==> outbox[1..][i].HeartbeatAck? {
        forall i | 0 < i < |outbox|
          ensures outbox[i].HeartbeatAck?
        {
          assert outbox[1..][i - 1] == outbox[i];
        }
      }
    }
  }

  lemma {:induction false} QuietNow(links: Links, parts: seq<LayerAssignment>)
    ensures PipelineMeaning.Quiet(parts, CleanAll(links)) <==> NothingUnread(links, NodeIds(parts))
  {
    var order := NodeIds(parts);
    forall k | 0 <= k < |parts|
      ensures QuietAt(parts[k], CleanAll(links)) <==> order[k] in links && AllAcks(links[order[k]].outbox)
    {
      if order[k] in links { OnlyAcks(links[order[k]].outbox); }
    }
    if PipelineMeaning.Quiet(parts, CleanAll(links)) {
      forall id | id in order
        ensures id in links && AllAcks(links[id].outbox)
      {
        var k :| 0 <= k < |order| && order[k] == id;
        assert QuietAt(parts[k], CleanAll(links));
      }
    } else {
      var k :| 0 <= k < |parts| && !QuietAt(parts[k], CleanAll(links));
      assert order[k] in order;
    }
  }

  /** A pipeline that keeps what was seen serves iff nothing is unread. */
  lemma {:induction false} KeepsServes(pipeline: DistributedPipeline, cluster: Cluster, parts: seq<LayerAssignment>,
                                       seen: map<SeqId, seq<nat>>)
    ensures pipeline.Serving(cluster, parts, true, seen) <==>
            Keeps(cluster.m, pipeline.order, pipeline.hiddenSize, pipeline.allocatedSeqs, cluster.links, parts, seen) &&
            NothingUnread(cluster.links, pipeline.order)
  {
    hide Laid, PipelineMeaning.Quiet, HeldByAll, HeldFor, WholeCache, CleanAll, NothingUnread;
    QuietNow(cluster.links, parts);
  }

  /** Streams may have changed, but no worker has. */
  lemma {:induction false} KeepsOn(m: Model, order: seq<NodeId>, hiddenSize: nat, known: set<SeqId>, was: Links,
                                   now: Links, parts: seq<LayerAssignment>, seen: map<SeqId, seq<nat>>)
    requires SameWorkers(was, now)
    ensures Keeps(m, order, hiddenSize, known, was, parts, seen) ==>
            Keeps(m, order, hiddenSize, known, now, parts, seen)
  {
    hide Tiles, W.ValidWorker, HeldFor, Concat;
    var a, b := CleanAll(was), CleanAll(now);
    if Keeps(m, order, hiddenSize, known, was, parts, seen) {
      forall k | 0 <= k < |parts|
        ensures LaidAt(m, parts[k], hiddenSize, b)
      {
        assert LaidAt(m, parts[k], hiddenSize, a);
      }
      forall s | s in seen
        ensures HeldByAll(parts, b, true, s) && HeldFor(m, WholeCache(parts, b, true, s), seen[s])
      {
        forall k | 0 <= k < |parts|
          ensures HeldAt(parts[k], b, true, s)
        {
          assert HeldAt(parts[k], a, true, s);
        }
        assert StageCaches(parts, b, true, s) == StageCaches(parts, a, true, s);
      }
    }
  }

  /**
   What the loop can rely on: the workers hold what it has fed them, or it is degraded and has
   nothing active.  Something may be unread.
   */
  ghost predicate Held(loop: DistributedLoop, pipeline: DistributedPipeline, cluster: Cluster,
                       parts: seq<LayerAssignment>, v: nat)
    reads loop, pipeline, cluster
  {
    loop.model == cluster.m && VocabSize(cluster.m, v) && loop.limits.maxPrefillTokens > 0 &&
    ((loop.degraded && loop.active == map[]) ||
     Keeps(cluster.m, pipeline.order, pipeline.hiddenSize, pipeline.allocatedSeqs, cluster.links, parts, loop.Fed()))
  }

  /** The same, and nothing is unread. */
  ghost predicate Sane(loop: DistributedLoop, pipeline: DistributedPipeline, cluster: Cluster,
                       parts: seq<LayerAssignment>, v: nat)
    reads loop, pipeline, cluster
  {
    Held(loop, pipeline, cluster, parts, v) && (loop.degraded || NothingUnread(cluster.links, pipeline.order))
  }

  lemma {:induction false} SaneIntact(loop: DistributedLoop, pipeline: DistributedPipeline, cluster: Cluster,
                                      parts: seq<LayerAssignment>, v: nat)
    requires !loop.degraded
    ensures Sane(loop, pipeline, cluster, parts, v) <==> Intact(loop, pipeline, cluster, parts, v)
  {
    hide Keeps, NothingUnread, VocabSize, DistributedPipeline.Serving, FedOf;
    KeepsServes(pipeline, cluster, parts, loop.Fed());
  }

  /** What is active has its caches allocated. */
  lemma {:induction false} HeldActive(loop: DistributedLoop, pipeline: DistributedPipeline, cluster: Cluster,
                                      parts: seq<LayerAssignment>, v: nat)
    requires loop.Valid() && Held(loop, pipeline, cluster, parts, v)
    ensures loop.active.Keys <= pipeline.allocatedSeqs
  {
    hide StateOk, SentOk, VocabSize, Laid, HeldByAll, HeldFor, WholeCache, CleanAll;
    StateKeys(loop.pending, loop.active, loop.log, {});
  }

  /** With nothing active, a new pipeline that is laid out will do, and so will none. */
  lemma {:induction false} RebuiltHeld(loop: DistributedLoop, p: DistributedPipeline, cluster: Cluster,
                                       parts: seq<LayerAssignment>, v: nat)
    requires loop.model == cluster.m && VocabSize(cluster.m, v) && loop.limits.maxPrefillTokens > 0 &&
             loop.active == map[]
    requires loop.degraded || NewlyLaid(p, cluster, parts)
    ensures Held(loop, p, cluster, parts, v)
  {
    hide VocabSize, Laid, CleanAll;
    assert loop.Fed() == map[];
  }

  // ----- batches over the pipeline -----

  /** The chunk that the batch brings a sequence, or nothing. */
  ghost function ChunkOf(metas: seq<W.SequenceMeta>, chunks: seq<seq<nat>>, s: SeqId): seq<nat>
    requires |metas| == |chunks|
  {
    if j :| 0 <= j < |metas| && metas[j].seqId == s then chunks[j] else []
  }

  /** What the sequences have seen when the batch is through. */
  ghost function SeenAfter(seen: map<SeqId, seq<nat>>, metas: seq<W.SequenceMeta>,
                           chunks: seq<seq<nat>>): map<SeqId, seq<nat>>
    requires |metas| == |chunks|
  {
    map s | s in seen :: seen[s] + ChunkOf(metas, chunks, s)
  }

  lemma {:induction false} SeenExtends(seen: map<SeqId, seq<nat>>, metas: seq<W.SequenceMeta>, chunks: seq<seq<nat>>)
    requires Continues(seen, Batch(metas), chunks) && DistinctSeqs(metas)
    ensures Extended(seen, Batch(metas), chunks, SeenAfter(seen, metas, chunks))
  {
    var call := Batch(metas);
    forall j | 0 <= j < |metas|
      ensures call.SeqAt(j) == metas[j].seqId && ChunkOf(metas, chunks, metas[j].seqId) == chunks[j]
    {
    }
    forall s | s in seen && !call.Has(s)
      ensures SeenAfter(seen, metas, chunks)[s] == seen[s]
    {
      assert forall j :: 0 <= j < |metas| ==> call.SeqAt(j) == metas[j].seqId;
      assert seen[s] + [] == seen[s];
    }
  }

  lemma {:induction false} ExtendedOnce(seen: map<SeqId, seq<nat>>, call: Call, idss: seq<seq<nat>>,
                                        a: map<SeqId, seq<nat>>, b: map<SeqId, seq<nat>>)
    requires Extended(seen, call, idss, a) && Extended(seen, call, idss, b)
    ensures a == b
  {
    forall s | s in seen
      ensures a[s] == b[s]
    {
      if call.Has(s) { var j :| 0 <= j < call.Count() && call.SeqAt(j) == s; }
    }
  }

  /** A plan over running sequences continues each of them where it stands. */
  lemma {:induction false} PlanContinues(plan: BatchPlan, chunks: seq<seq<nat>>, limits: Limits,
                                         pending: seq<Request>, active: Active, log: Log)
    requires PlanOk(plan, chunks, active, limits) && StateOk(pending, active, log, {}) && plan.metas != [] &&
             limits.maxPrefillTokens > 0
    ensures Sound(Batch(plan.metas)) && Continues(FedOf(active, log), Batch(plan.metas), chunks) &&
            plan.ids == Concat(chunks)
  {
    hide Running, Waiting, Answered, Concat;
    var call := Batch(plan.metas);
    forall i | 0 <= i < |plan.metas|
      ensures call.SeqAt(i) in FedOf(active, log) && chunks[i] != []
      ensures call.PosAt(i) == Positions(|FedOf(active, log)[call.SeqAt(i)]|, |chunks[i]|)
      ensures plan.metas[i].numTokens == |plan.metas[i].positions| > 0
    {
      assert PartOk(plan.metas[i], plan.isPrefill[i], chunks[i], active, limits);
      var s := plan.metas[i].seqId;
      assert Placed(s, active[s], log, {});
      PlacedKnown(s, active[s], log, {});
      PartContinues(plan.metas[i], plan.isPrefill[i], chunks[i], active, limits, log);
    }
  }

  /** What the sampling loop makes of the log is what the pipeline has then seen. */
  lemma {:induction false} MovedExtends(metas: seq<W.SequenceMeta>, chunks: seq<seq<nat>>, active: Active, log: Log,
                                        active': Active, log': Log)
    requires Moved(metas, |metas|, chunks, active, log, active', log') && active.Keys <= log.received.Keys
    requires forall i :: 0 <= i < |metas| ==> metas[i].seqId in active
    ensures Extended(FedOf(active, log), Batch(metas), chunks, FedOf(active', log'))
  {
    var call := Batch(metas);
    forall j | 0 <= j < call.Count()
      ensures call.SeqAt(j) in FedOf(active, log) &&
              FedOf(active', log')[call.SeqAt(j)] == FedOf(active, log)[call.SeqAt(j)] + chunks[j]
    {
      assert call.SeqAt(j) == metas[j].seqId;
    }
    forall s | s in FedOf(active, log) && !call.Has(s)
      ensures FedOf(active', log')[s] == FedOf(active, log)[s]
    {
      forall j | 0 <= j < |metas|
        ensures metas[j].seqId != s
      {
        assert call.SeqAt(j) == metas[j].seqId;
      }
      assert !InFirst(metas, |metas|, s);
      assert AgreesOn(log, log', s);
    }
  }

  /** The keys of the map, in whatever order they come. */
  method Keys(active: Active) returns (order: seq<SeqId>)
    ensures Distinct(order) && forall s :: s in order <==> s in active
  {
    order := [];
    var rest := active.Keys;
    while rest != {}
      invariant rest <= active.Keys && Distinct(order) && forall s :: s in order <==> s in active && s !in rest
      decreases |rest|
    {
      var s :| s in rest;
      order := order + [s];
      rest := rest - {s};
    }
  }

  lemma {:induction false} PrefillsFit(pending: seq<Request>, active: Active, log: Log)
    requires StateOk(pending, active, log, {})
    ensures forall s :: s in active && !active[s].prefillDone ==> |active[s].remaining| <= active[s].currentPos
  {
    hide Waiting, Answered, NoStop;
    forall s | s in active && !active[s].prefillDone
      ensures |active[s].remaining| <= active[s].currentPos
    {
      assert Placed(s, active[s], log, {});
    }
  }

  /** On an intact pipeline the rows of a batch are truthful. */
  lemma {:induction false} RowsTruthful(m: Model, metas: seq<W.SequenceMeta>, chunks: seq<seq<nat>>, active: Active,
                                        log: Log, rows: seq<Row>)
    requires Continues(FedOf(active, log), Batch(metas), chunks) &&
             rows == ReferenceAll(m, FedOf(active, log), Batch(metas), chunks)
    ensures Truthful(m, metas, log, chunks, rows)
  {
    hide ReferenceLogits;
    forall i | 0 <= i < |metas|
      ensures TruthfulAt(m, metas[i].seqId, log, chunks[i], rows[i])
    {
      assert Batch(metas).SeqAt(i) == metas[i].seqId;
    }
  }

  /** The workers serve the sequences that are not to be freed, and hold those that are. */
  ghost predicate ServesRest(loop: DistributedLoop, pipeline: DistributedPipeline, cluster: Cluster,
                             parts: seq<LayerAssignment>, freed: set<SeqId>)
    reads loop, pipeline, cluster
  {
    pipeline.Serving(cluster, parts, true, loop.Fed() - freed) &&
    forall s :: s in freed ==> HeldByAll(parts, CleanAll(cluster.links), true, s)
  }

  lemma {:induction false} NextMeta(metas: seq<W.SequenceMeta>, i: nat)
    requires i < |metas| && DistinctSeqs(metas)
    ensures metas[i].seqId in W.BatchIds(metas[i..]) &&
            W.BatchIds(metas[i..]) - {metas[i].seqId} == W.BatchIds(metas[i + 1..])
  {
    var rest := metas[i..];
    assert rest[0] == metas[i] && metas[i + 1..] == rest[1..];
    assert rest[0].seqId in W.BatchIds(rest);
    forall s | s in W.BatchIds(rest) - {metas[i].seqId}
      ensures s in W.BatchIds(rest[1..])
    {
      var k :| 0 <= k < |rest| && rest[k].seqId == s;
      assert rest[1..][k - 1].seqId == s;
    }
    forall s | s in W.BatchIds(rest[1..])
      ensures s in W.BatchIds(rest) - {metas[i].seqId}
    {
      var k :| 0 <= k < |rest[1..]| && rest[1..][k].seqId == s;
      assert rest[k + 1].seqId == s && metas[i + k + 1].seqId == s;
    }
  }

  lemma {:induction false} ServingReach(pipeline: DistributedPipeline, cluster: Cluster, parts: seq<LayerAssignment>,
                                        seen: map<SeqId, seq<nat>>)
    requires pipeline.Serving(cluster, parts, true, seen)
    ensures pipeline.order == NodeIds(parts) && Reaches(pipeline.order, cluster.links) &&
            NothingUnread(cluster.links, pipeline.order)
  {
    hide Tracks, CleanAll;
    TracksQuiet(cluster.m, parts, pipeline.hiddenSize, CleanAll(cluster.links), true, seen);
    KeepsServes(pipeline, cluster, parts, seen);
  }

  /** The workers of the order are registered, each once. */
  ghost predicate Reaches(order: seq<NodeId>, links: Links) {
    Distinct(order) && IdSet(order) <= links.Keys
  }

  lemma {:induction false} ReachesOn(order: seq<NodeId>, was: Links, now: Links)
    requires Reaches(order, was) && now.Keys == was.Keys
    ensures Reaches(order, now)
  {
  }

  /** What is said comes after what was unread, and an announced leave with it. */
  lemma {:induction false} SaidAfter(m: Model, l: Link, req: W.Request, env: Env)
    requires W.ValidWorker(m, l.worker)
    ensures AllAcks(Handled(m, l, req, env).outbox) ==> AllAcks(l.outbox) && !env.leaves
  {
    hide W.Serve;
    var all := Handled(m, l, req, env).outbox;
    assert forall i :: 0 <= i < |l.outbox| ==> all[i] == l.outbox[i];
    if env.leaves { assert all[|l.outbox| + |Acks(env.acksBefore)|] == W.LeaveIntent; }
  }

  /** Told to free a sequence, the workers leave unread what was, and with it any leave they announce. */
  lemma {:induction false} UnreadStays(m: Model, links: Links, ids: set<NodeId>, order: seq<NodeId>, s: SeqId,
                                       env: NodeId -> Env)
    requires ValidLinks(m, links) && Reaches(order, links) &&
             NothingUnread(HandleOn(m, links, ids, W.CacheFree(s), env), order)
    ensures NothingUnread(links, order) && forall id :: id in order && id in ids ==> !env(id).leaves
  {
    hide Handled, W.ValidWorker, AllAcks;
    forall id | id in order
      ensures id in links && AllAcks(links[id].outbox) && (id in ids ==> !env(id).leaves)
    {
      assert id in IdSet(order);
      SaidAfter(m, links[id], W.CacheFree(s), env(id));
    }
  }

  /** One sequence of a failed batch is aborted and freed. */
  method FailOne(loop: DistributedLoop, pipeline: DistributedPipeline, cluster: Cluster, s: SeqId, ready: set<NodeId>,
                 env: NodeId -> Env, ghost parts: seq<LayerAssignment>, ghost flight: set<SeqId>)
    requires StateOk(loop.pending, loop.active, loop.log, {}) && SentOk(loop.log, loop.sent, flight) && cluster.Valid()
    requires s in loop.active && s in flight
    modifies loop`active, loop`log, pipeline`allocatedSeqs, cluster`links
    ensures StateOk(loop.pending, loop.active, loop.log, {}) && SentOk(loop.log, loop.sent, flight - {s}) &&
            cluster.Valid()
    ensures Later(old(loop.log), loop.log) && loop.log.received == old(loop.log).received &&
            loop.active == old(loop.active) - {s}
    ensures old(loop.Right({})) ==> loop.Right({})
    ensures old(ServesRest(loop, pipeline, cluster, parts, flight)) && StayIn(pipeline.order, ready, env) ==>
      ServesRest(loop, pipeline, cluster, parts, flight - {s})
    ensures Reaches(pipeline.order, old(cluster.links)) && NothingUnread(cluster.links, pipeline.order) ==>
      old(NothingUnread(cluster.links, pipeline.order)) && StayIn(pipeline.order, ready, env)
    ensures HoldNoMore(old(cluster.links), cluster.links, {}) &&
            pipeline.allocatedSeqs <= old(pipeline.allocatedSeqs)
    ensures ErrorsFor(old(loop.log), loop.log, {s})
  {
    hide StateOk, SentOk, Later, SampledRight, RightAnswers, FedOf, ValidLinks, FreedWorkers, CleanAll, ErrorsFor,
      DistributedPipeline.Serving, HeldByAll, HandleOn, HoldNoMore, NothingUnread;
    ghost var seen := loop.Fed() - flight;
    loop.Abort(s, flight);
    assert loop.Fed() - (flight - {s}) == seen == seen - {s};
    pipeline.FreeBestEffort(cluster, s, ready, env, parts, true, seen);
    FreedHold(old(cluster.links), cluster.links, IdSet(pipeline.order) * ready, {s});
    if Reaches(pipeline.order, old(cluster.links)) && NothingUnread(cluster.links, pipeline.order) {
      UnreadStays(cluster.m, old(cluster.links), IdSet(pipeline.order) * ready, pipeline.order, s, env);
    }
  }

  /**
   A batch whose pass failed: its sequences are answered with an error and freed where that is
   possible.  All others are served on if nobody who is told announces its leave.
   */
  method FailBatch(loop: DistributedLoop, pipeline: DistributedPipeline, cluster: Cluster, metas: seq<W.SequenceMeta>,
                   ready: set<NodeId>, env: SeqId -> NodeId -> Env, ghost parts: seq<LayerAssignment>)
    returns (quiet: bool)
    requires StateOk(loop.pending, loop.active, loop.log, {}) && SentOk(loop.log, loop.sent, W.BatchIds(metas)) &&
             cluster.Valid()
    requires DistinctSeqs(metas) && forall i :: 0 <= i < |metas| ==> metas[i].seqId in loop.active
    modifies loop`active, loop`log, pipeline`allocatedSeqs, cluster`links
    ensures loop.Valid() && cluster.Valid() && Later(old(loop.log), loop.log) &&
            loop.log.received == old(loop.log).received
    ensures old(loop.Right({})) ==> loop.Right({})
    ensures loop.active.Keys <= old(loop.active).Keys && forall i :: 0 <= i < |metas| ==> metas[i].seqId !in loop.active
    ensures forall t :: t in loop.active ==> loop.active[t] == old(loop.active)[t]
    ensures forall t :: t in old(loop.active) && !InFirst(metas, |metas|, t) ==> t in loop.active
    ensures quiet <==>
      forall s :: s in old(loop.active) && s !in loop.active ==> StayIn(pipeline.order, ready, env(s))
    ensures old(ServesRest(loop, pipeline, cluster, parts, W.BatchIds(metas))) && quiet ==>
      pipeline.Serving(cluster, parts, true, loop.Fed())
    ensures Reaches(pipeline.order, old(cluster.links)) && pipeline.Serving(cluster, parts, true, loop.Fed()) ==>
      old(NothingUnread(cluster.links, pipeline.order)) && quiet
    ensures HoldNoMore(old(cluster.links), cluster.links, {}) &&
            pipeline.allocatedSeqs <= old(pipeline.allocatedSeqs)
    ensures ErrorsFor(old(loop.log), loop.log, W.BatchIds(metas))
  {
    hide StateOk, SentOk, Later, SampledRight, RightAnswers, FedOf, ValidLinks, FreedWorkers, CleanAll, ServesRest,
      W.BatchIds, StayIn, HoldNoMore, ErrorsFor, NothingUnread, Reaches, DistributedPipeline.Serving;
    SomeLater(loop.pending, loop.active, loop.log, {});
    HoldSame(cluster.links, {});
    assert metas[0..] == metas;
    NoErrors(loop.log);
    NoneFailed(metas);
    quiet := true;
    for i := 0 to |metas|
      invariant StateOk(loop.pending, loop.active, loop.log, {}) &&
                SentOk(loop.log, loop.sent, W.BatchIds(metas[i..])) && cluster.Valid()
      invariant Later(old(loop.log), loop.log) && loop.log.received == old(loop.log).received
      invariant old(loop.Right({})) ==> loop.Right({})
      invariant loop.active.Keys <= old(loop.active).Keys &&
                forall k :: 0 <= k < |metas| ==> (metas[k].seqId in loop.active <==> i <= k)
      invariant forall t :: t in loop.active ==> loop.active[t] == old(loop.active)[t]
      invariant forall t :: t in old(loop.active) && !InFirst(metas, |metas|, t) ==> t in loop.active
      invariant quiet <==> forall k :: 0 <= k < i ==> StayIn(pipeline.order, ready, env(metas[k].seqId))
      invariant old(ServesRest(loop, pipeline, cluster, parts, W.BatchIds(metas))) && quiet ==>
        ServesRest(loop, pipeline, cluster, parts, W.BatchIds(metas[i..]))
      invariant Reaches(pipeline.order, old(cluster.links)) && NothingUnread(cluster.links, pipeline.order) ==>
        old(NothingUnread(cluster.links, pipeline.order)) && quiet
      invariant HoldNoMore(old(cluster.links), cluster.links, {}) && cluster.links.Keys == old(cluster.links).Keys
      invariant pipeline.allocatedSeqs <= old(pipeline.allocatedSeqs)
      invariant ErrorsFor(old(loop.log), loop.log, W.BatchIds(metas[..i]))
    {
      ghost var mid, before := loop.log, cluster.links;
      var s := metas[i].seqId;
      NextMeta(metas, i);
      if Reaches(pipeline.order, old(cluster.links)) { ReachesOn(pipeline.order, old(cluster.links), before); }
      FailOne(loop, pipeline, cluster, s, ready, env(s), parts, W.BatchIds(metas[i..]));
      HoldOn(old(cluster.links), before, cluster.links, {}, {});
      HoldKeys(before, cluster.links);
      LaterTransitive(old(loop.log), mid, loop.log);
      OneFailed(metas, i);
      ErrorNext(old(loop.log), mid, loop.log, W.BatchIds(metas[..i]), s);
      quiet := quiet && StayIn(pipeline.order, ready, env(s));
    }
    assert metas[|metas|..] == [] && metas[..|metas|] == metas;
    NothingFreed(loop, pipeline, cluster, parts, W.BatchIds(metas[|metas|..]));
    if pipeline.Serving(cluster, parts, true, loop.Fed()) { ServingReach(pipeline, cluster, parts, loop.Fed()); }
    RemovedAre(metas, old(loop.active), loop.active);
  }

  lemma {:induction false} NoneFailed(metas: seq<W.SequenceMeta>)
    ensures W.BatchIds(metas[..0]) == {}
  {
  }

  lemma {:induction false} OneFailed(metas: seq<W.SequenceMeta>, i: nat)
    requires i < |metas| && DistinctSeqs(metas)
    ensures metas[i].seqId !in W.BatchIds(metas[..i])
    ensures W.BatchIds(metas[..i + 1]) == W.BatchIds(metas[..i]) + {metas[i].seqId}
  {
    assert metas[..i + 1] == metas[..i] + [metas[i]];
  }

  lemma {:induction false} RemovedAre(metas: seq<W.SequenceMeta>, was: Active, now: Active)
    requires forall i :: 0 <= i < |metas| ==> metas[i].seqId in was && metas[i].seqId !in now
    requires forall s :: s in was && !InFirst(metas, |metas|, s) ==> s in now
    ensures forall s :: s in was && s !in now <==> exists i :: 0 <= i < |metas| && metas[i].seqId == s
  {
  }

  lemma {:induction false} HoldKeys(was: Links, now: Links)
    requires HoldNoMore(was, now, {})
    ensures now.Keys == was.Keys
  {
  }

  lemma {:induction false} NothingFreed(loop: DistributedLoop, pipeline: DistributedPipeline, cluster: Cluster,
                                        parts: seq<LayerAssignment>, freed: set<SeqId>)
    requires freed == W.BatchIds([])
    ensures freed == {} && (ServesRest(loop, pipeline, cluster, parts, freed) ==>
                              pipeline.Serving(cluster, parts, true, loop.Fed()))
  {
    hide FedOf, DistributedPipeline.Serving;
    assert loop.Fed() - {} == loop.Fed();
  }

  lemma {:induction false} OutsideBatch(seen: map<SeqId, seq<nat>>, metas: seq<W.SequenceMeta>)
    ensures Outside(seen, Batch(metas)) == seen - W.BatchIds(metas)
  {
    forall s
      ensures Batch(metas).Has(s) <==> s in W.BatchIds(metas)
    {
      assert forall j :: 0 <= j < |metas| ==> Batch(metas).SeqAt(j) == metas[j].seqId;
      if Batch(metas).Has(s) { var j :| 0 <= j < Batch(metas).Count() && Batch(metas).SeqAt(j) == s; }
    }
  }

  lemma {:induction false} RestServed(loop: DistributedLoop, pipeline: DistributedPipeline, cluster: Cluster,
                                      parts: seq<LayerAssignment>, metas: seq<W.SequenceMeta>)
    requires StateOk(loop.pending, loop.active, loop.log, {}) &&
             forall i :: 0 <= i < |metas| ==> metas[i].seqId in loop.active
    requires pipeline.Serving(cluster, parts, true, Outside(loop.Fed(), Batch(metas)))
    requires forall s :: s in loop.Fed() ==> HeldByAll(parts, CleanAll(cluster.links), true, s)
    ensures ServesRest(loop, pipeline, cluster, parts, W.BatchIds(metas))
  {
    hide StateOk, FedOf, CleanAll, DistributedPipeline.Serving, HeldByAll, Outside;
    OutsideBatch(loop.Fed(), metas);
    forall s | s in W.BatchIds(metas)
      ensures s in loop.Fed()
    {
      FedHas(loop, s, {});
    }
  }

  /** One sequence that has ended is told so, removed, and freed on the workers. */
  method FinishOne(loop: DistributedLoop, pipeline: DistributedPipeline, cluster: Cluster, s: SeqId,
                   env: NodeId -> Env, ghost parts: seq<LayerAssignment>, ghost ending: set<SeqId>)
    requires StateOk(loop.pending, loop.active, loop.log, ending) && SentOk(loop.log, loop.sent, {}) && cluster.Valid()
    requires s in loop.active && s in ending
    modifies loop`active, loop`log, pipeline`allocatedSeqs, cluster`links
    ensures StateOk(loop.pending, loop.active, loop.log, ending - {s}) && SentOk(loop.log, loop.sent, {}) &&
            cluster.Valid() && cluster.links.Keys == old(cluster.links).Keys
    ensures Later(old(loop.log), loop.log) && loop.log.received == old(loop.log).received &&
            loop.active == old(loop.active) - {s}
    ensures old(loop.Right(ending)) ==> loop.Right(ending - {s})
    ensures old(pipeline.Serving(cluster, parts, true, loop.Fed())) ==>
      (pipeline.Serving(cluster, parts, true, loop.Fed()) <==> AllStay(pipeline.order, env)) &&
      (NothingUnread(cluster.links, pipeline.order) ==> AllStay(pipeline.order, env))
    ensures Reaches(pipeline.order, old(cluster.links)) && NothingUnread(cluster.links, pipeline.order) ==>
      old(NothingUnread(cluster.links, pipeline.order))
    ensures HoldNoMore(old(cluster.links), cluster.links, {}) &&
            pipeline.allocatedSeqs <= old(pipeline.allocatedSeqs)
    ensures Blameless(loop.model, old(loop.log)) ==> Blameless(loop.model, loop.log)
  {
    hide StateOk, SentOk, Later, SampledRight, RightAnswers, FedOf, ValidLinks, CleanAll, DistributedPipeline.Serving,
      DeliverTo, HeldOn, HandleOn, HoldNoMore, NothingUnread, Blameless;
    ghost var fed := loop.Fed();
    if pipeline.Serving(cluster, parts, true, fed) { ServingReach(pipeline, cluster, parts, fed); }
    FedHas(loop, s, ending);
    loop.Finish(s, ending);
    var r := pipeline.FreeCache(cluster, s, env, parts, true, fed);
    if r.Ok? && Reaches(pipeline.order, old(cluster.links)) && NothingUnread(cluster.links, pipeline.order) {
      UnreadStays(cluster.m, old(cluster.links), IdSet(pipeline.order), pipeline.order, s, env);
    }
  }

  /**
   The sequences that have ended are told so, removed, and freed on the workers.  The others are
   served on if no worker announces its leave.
   */
  method FinishAll(loop: DistributedLoop, pipeline: DistributedPipeline, cluster: Cluster, completed: seq<SeqId>,
                   env: SeqId -> NodeId -> Env, ghost parts: seq<LayerAssignment>) returns (quiet: bool)
    requires StateOk(loop.pending, loop.active, loop.log, IdsOf(completed)) && SentOk(loop.log, loop.sent, {}) &&
             cluster.Valid()
    requires Distinct(completed) && IdsOf(completed) <= loop.active.Keys
    modifies loop`active, loop`log, pipeline`allocatedSeqs, cluster`links
    ensures loop.Valid() && cluster.Valid() && Later(old(loop.log), loop.log) &&
            loop.log.received == old(loop.log).received
    ensures loop.active.Keys == old(loop.active).Keys - IdsOf(completed) &&
            forall t :: t in loop.active ==> loop.active[t] == old(loop.active)[t]
    ensures old(loop.Right(IdsOf(completed))) ==> loop.Right({})
    ensures quiet <==> forall i :: 0 <= i < |completed| ==> AllStay(pipeline.order, env(completed[i]))
    ensures old(pipeline.Serving(cluster, parts, true, loop.Fed())) ==>
      (quiet <==> pipeline.Serving(cluster, parts, true, loop.Fed()))
    ensures HoldNoMore(old(cluster.links), cluster.links, {}) &&
            pipeline.allocatedSeqs <= old(pipeline.allocatedSeqs)
    ensures Blameless(loop.model, old(loop.log)) ==> Blameless(loop.model, loop.log)
  {
    hide StateOk, SentOk, Later, SampledRight, RightAnswers, FedOf, ValidLinks, CleanAll, DistributedPipeline.Serving,
      AllStay, HoldNoMore, NothingUnread, Reaches, Blameless;
    quiet := true;
    HoldSame(cluster.links, {});
    ghost var serving := pipeline.Serving(cluster, parts, true, loop.Fed());
    if serving { ServingReach(pipeline, cluster, parts, loop.Fed()); }
    SomeLater(loop.pending, loop.active, loop.log, IdsOf(completed));
    assert completed[0..] == completed && IdsOf(completed[..0]) == {};
    for i := 0 to |completed|
      invariant StateOk(loop.pending, loop.active, loop.log, IdsOf(completed[i..])) &&
                SentOk(loop.log, loop.sent, {}) && cluster.Valid()
      invariant Later(old(loop.log), loop.log) && loop.log.received == old(loop.log).received
      invariant loop.active.Keys == old(loop.active).Keys - IdsOf(completed[..i]) &&
                IdsOf(completed[i..]) <= loop.active.Keys
      invariant forall t :: t in loop.active ==> loop.active[t] == old(loop.active)[t]
      invariant old(loop.Right(IdsOf(completed))) ==> loop.Right(IdsOf(completed[i..]))
      invariant Blameless(loop.model, old(loop.log)) ==> Blameless(loop.model, loop.log)
      invariant pipeline.allocatedSeqs <= old(pipeline.allocatedSeqs)
      invariant quiet <==> forall k :: 0 <= k < i ==> AllStay(pipeline.order, env(completed[k]))
      invariant serving && quiet ==> pipeline.Serving(cluster, parts, true, loop.Fed())
      invariant serving ==>
        Reaches(pipeline.order, cluster.links) && (NothingUnread(cluster.links, pipeline.order) ==> quiet)
      invariant HoldNoMore(old(cluster.links), cluster.links, {})
    {
      var s := completed[i];
      ghost var mid, before := loop.log, cluster.links;
      NextId(completed, i);
      FinishOne(loop, pipeline, cluster, s, env(s), parts, IdsOf(completed[i..]));
      LaterTransitive(old(loop.log), mid, loop.log);
      if serving { ReachesOn(pipeline.order, before, cluster.links); }
      HoldOn(old(cluster.links), before, cluster.links, {}, {});
      quiet := quiet && AllStay(pipeline.order, env(s));
    }
    if pipeline.Serving(cluster, parts, true, loop.Fed()) {
      ServingReach(pipeline, cluster, parts, loop.Fed());
    }
    assert IdsOf(completed[|completed|..]) == {} && completed[..|completed|] == completed;
  }

  lemma {:induction false} NextId(ids: seq<SeqId>, i: nat)
    requires i < |ids| && Distinct(ids)
    ensures IdsOf(ids[i..]) - {ids[i]} == IdsOf(ids[i + 1..]) && ids[i] in IdsOf(ids[i..])
    ensures IdsOf(ids[..i + 1]) == IdsOf(ids[..i]) + {ids[i]}
  {
    assert ids[i..] == [ids[i]] + ids[i + 1..] && ids[..i + 1] == ids[..i] + [ids[i]];
    assert ids[i] !in ids[i + 1..];
  }

  lemma {:induction false} FedHas(loop: DistributedLoop, s: SeqId, ending: set<SeqId>)
    requires StateOk(loop.pending, loop.active, loop.log, ending) && s in loop.active
    ensures s in loop.Fed()
  {
    hide StateOk;
    StateKeys(loop.pending, loop.active, loop.log, ending);
  }

  lemma {:induction false} BusyHasWork(active: Active, order: seq<SeqId>, limits: Limits)
    requires Busy(active, limits) && forall s :: s in order <==> s in active
    ensures HasWork(active, order, limits) && limits.maxPrefillTokens > 0
  {
    var s :| s in active && Schedulable(active[s]);
    var i :| 0 <= i < |order| && order[i] == s;
  }

  lemma {:induction false} PartsSchedulable(plan: BatchPlan, chunks: seq<seq<nat>>, active: Active, limits: Limits)
    requires PlanOk(plan, chunks, active, limits)
    ensures forall s :: InFirst(plan.metas, |plan.metas|, s) ==> s in active && Schedulable(active[s])
  {
    forall s | InFirst(plan.metas, |plan.metas|, s)
      ensures s in active && Schedulable(active[s])
    {
      var i :| 0 <= i < |plan.metas| && plan.metas[i].seqId == s;
      assert PartOk(plan.metas[i], plan.isPrefill[i], chunks[i], active, limits);
    }
  }

  lemma {:induction false} OthersStay(metas: seq<W.SequenceMeta>, chunks: seq<seq<nat>>, active: Active, log: Log,
                                      active': Active, log': Log)
    requires Moved(metas, |metas|, chunks, active, log, active', log') && active.Keys <= log.received.Keys
    ensures forall s :: s in active && !InFirst(metas, |metas|, s) ==> s in active' && active'[s] == active[s]
  {
  }

  /** The devices of all stages compute, and none of them announces its leave. */
  predicate AllHealthy(order: seq<NodeId>, env: NodeId -> Env) {
    forall i :: 0 <= i < |order| ==> env(order[i]).computeOk && !env(order[i]).leaves
  }

  function EnvsOf(order: seq<NodeId>, env: NodeId -> Env): (envs: seq<Env>)
    ensures |envs| == |order|
    ensures AllHealthy(order, env) ==> AllAnswer(envs, 0, |order|)
  {
    seq(|order|, i requires 0 <= i < |order| => env(order[i]))
  }

  /** No stage announces its leave before one has failed to answer. */
  predicate Unmet(envs: seq<Env>) {
    envs == [] || (!envs[0].leaves && (!envs[0].computeOk || Unmet(envs[1..])))
  }

  lemma {:induction false} UnmetIff(envs: seq<Env>, i: nat)
    requires i <= |envs|
    ensures Unmet(envs[i..]) <==> !LeaveMet(envs, i, |envs|)
    decreases |envs| - i
  {
    hide LeaveMet;
    if i < |envs| {
      LeaveMetStep(envs, i, |envs|);
      UnmetIff(envs, i + 1);
      assert envs[i..][0] == envs[i] && envs[i..][1..] == envs[i + 1..];
    } else {
      NoneLeft(envs);
    }
  }

  lemma {:induction false} NoneLeft(envs: seq<Env>)
    ensures !LeaveMet(envs, |envs|, |envs|)
  {
  }

  /** The rows of a batch are sampled and the finished sequences removed. */
  method Deliver(loop: DistributedLoop, pipeline: DistributedPipeline, cluster: Cluster, plan: BatchPlan,
                 rows: seq<Row>, env: SeqId -> NodeId -> Env, ghost chunks: seq<seq<nat>>,
                   ghost parts: seq<LayerAssignment>) returns (quiet: bool)
    requires StateOk(loop.pending, loop.active, loop.log, {}) && cluster.Valid() && plan.metas != []
    requires PlanOk(plan, chunks, loop.active, loop.limits)
    requires SentOk(loop.log, loop.sent, W.BatchIds(plan.metas)) && HandedOver(loop.log, loop.sent, plan.metas, chunks)
    requires |rows| == |plan.metas| == |chunks|
    modifies loop`active, loop`log, pipeline`allocatedSeqs, cluster`links
    ensures loop.Valid() && cluster.Valid() && Later(old(loop.log), loop.log) &&
            loop.log.received == old(loop.log).received
    ensures loop.active.Keys <= old(loop.active).Keys
    ensures forall s :: s in old(loop.active) && !InFirst(plan.metas, |plan.metas|, s) ==>
      s in loop.active && loop.active[s] == old(loop.active)[s]
    ensures loop.limits.maxPrefillTokens > 0 ==> Total(loop.active) < old(Total(loop.active))
    ensures old(loop.Right({})) && Truthful(loop.model, plan.metas, old(loop.log), chunks, rows) ==>
      loop.Right({}) && (Blameless(loop.model, old(loop.log)) ==> Blameless(loop.model, loop.log))
    ensures pipeline.allocatedSeqs <= old(pipeline.allocatedSeqs)
    ensures Extended(old(loop.Fed()), Batch(plan.metas), chunks, SeenAfter(old(loop.Fed()), plan.metas, chunks)) &&
            old(pipeline.Serving(cluster, parts, true, SeenAfter(loop.Fed(), plan.metas, chunks))) ==>
      (quiet <==> pipeline.Serving(cluster, parts, true, loop.Fed()))
    ensures quiet <==> forall s :: s in old(loop.active) && s !in loop.active ==> AllStay(pipeline.order, env(s))
    ensures HoldNoMore(old(cluster.links), cluster.links, {})
  {
    hide AllStay, HoldNoMore, StateOk, SentOk, Later, SampledRight, RightAnswers, FedOf, ValidLinks, CleanAll,
      Blameless, DistributedPipeline.Serving, PlanOk, Moved, Extended, HandedOver, W.BatchIds, SeenAfter, Truthful,
      InFirst, Shrunk, Total, Need;
    ghost var was, before, seen := loop.active, loop.log, loop.Fed();
    StateKeys(loop.pending, was, before, {});
    PlanFacts(plan, chunks, was, loop.limits);
    var completed := loop.Sample(plan, rows, chunks);
    MovedExtends(plan.metas, chunks, was, before, loop.active, loop.log);
    if Extended(seen, Batch(plan.metas), chunks, SeenAfter(seen, plan.metas, chunks)) {
      ExtendedOnce(seen, Batch(plan.metas), chunks, SeenAfter(seen, plan.metas, chunks), loop.Fed());
    }
    OthersStay(plan.metas, chunks, was, before, loop.active, loop.log);
    ghost var mid, left := loop.log, loop.active;
    quiet := FinishAll(loop, pipeline, cluster, completed, env, parts);
    assert forall s :: s in was && s !in loop.active <==> s in completed;
    LaterTransitive(before, mid, loop.log);
    if loop.limits.maxPrefillTokens > 0 {
      BatchShrinks(plan.metas, chunks, was, before, left, mid, IdsOf(completed), loop.active);
    }
  }

  /**
   A batch is sent down the pipeline.  On an intact pipeline it goes through if all stages compute
   and stay, and its rows are truthful; when it fails, nothing is unread iff no stage announced its
   leave before one failed to answer, and then the sequences outside the batch are served on.
   */
  method Pass(loop: DistributedLoop, pipeline: DistributedPipeline, cluster: Cluster, plan: BatchPlan,
              env: NodeId -> Env, ghost chunks: seq<seq<nat>>, ghost parts: seq<LayerAssignment>, ghost v: nat)
    returns (rows: Result<seq<Row>>)
    requires loop.Valid() && cluster.Valid() && PlanOk(plan, chunks, loop.active, loop.limits) && plan.metas != []
    modifies loop`sent, cluster`links
    ensures cluster.Valid() && |plan.metas| == |chunks| && (rows.Ok? ==> |rows.value| == |plan.metas|)
    ensures SentOk(loop.log, loop.sent, W.BatchIds(plan.metas)) &&
            HandedOver(loop.log, loop.sent, plan.metas, chunks)
    ensures old(Intact(loop, pipeline, cluster, parts, v)) && AllHealthy(pipeline.order, env) ==> rows.Ok?
    ensures old(Intact(loop, pipeline, cluster, parts, v)) && rows.Ok? ==>
      Truthful(loop.model, plan.metas, loop.log, chunks, rows.value) &&
      Extended(loop.Fed(), Batch(plan.metas), chunks, SeenAfter(loop.Fed(), plan.metas, chunks)) &&
      pipeline.Serving(cluster, parts, true, SeenAfter(loop.Fed(), plan.metas, chunks))
    ensures old(Intact(loop, pipeline, cluster, parts, v)) && rows.Err? ==>
      Reaches(pipeline.order, cluster.links) &&
      (NothingUnread(cluster.links, pipeline.order) <==> Unmet(EnvsOf(pipeline.order, env))) &&
      (Unmet(EnvsOf(pipeline.order, env)) ==> ServesRest(loop, pipeline, cluster, parts, W.BatchIds(plan.metas)))
    ensures HoldNoMore(old(cluster.links), cluster.links, {})
  {
    hide StateOk, SentOk, FedOf, ValidLinks, CleanAll, DistributedPipeline.Serving, PlanOk, Continues, Extended, Sound,
      ReferenceAll, SeenAfter, Concat, VocabSize, EnvsOf, Truthful, HandedOver, SentWith, W.BatchIds, Outside,
      HeldByAll, ServesRest, MetLeave, LeaveMet, Unmet, HoldNoMore, NothingUnread, Reaches, PipelineMeaning.Quiet;
    ghost var intact, seen := Intact(loop, pipeline, cluster, parts, v), loop.Fed();
    PlanFacts(plan, chunks, loop.active, loop.limits);
    ghost var seen' := SeenAfter(seen, plan.metas, chunks);
    if intact {
      ServingReach(pipeline, cluster, parts, seen);
      PlanContinues(plan, chunks, loop.limits, loop.pending, loop.active, loop.log);
      SeenExtends(seen, plan.metas, chunks);
    }
    loop.HandOver(plan, chunks);
    var envs := EnvsOf(pipeline.order, env);
    UnmetIff(envs, 0);
    assert envs[0..] == envs;
    rows := pipeline.BatchedForward(cluster, plan.metas, plan.ids, envs, parts, seen, chunks, seen', v);
    if intact && rows.Ok? { RowsTruthful(cluster.m, plan.metas, chunks, loop.active, loop.log, rows.value); }
    if intact && rows.Err? {
      QuietNow(cluster.links, parts);
      ReachesOn(pipeline.order, old(cluster.links), cluster.links);
      if Unmet(envs) { RestServed(loop, pipeline, cluster, parts, plan.metas); }
    }
  }

  /**
   One batch: built, sent through the pipeline, sampled, and the finished sequences removed.
   On an intact pipeline whose stages all compute and stay it goes through.  Whether it does or
   not, what is generated and answered is what naive generation gives, and there is less work
   left than before; the pipeline stays intact iff no message meets a leave.  A sequence that
   cannot be scheduled stays as it is.
   */
  method ServeBatch(loop: DistributedLoop, pipeline: DistributedPipeline, cluster: Cluster,
                    registry: PeerRegistry, env: Envs, ghost parts: seq<LayerAssignment>, ghost v: nat)
    returns (ok: bool, quiet: bool)
    requires loop.Valid() && cluster.Valid()
    modifies loop`active, loop`log, loop`sent, pipeline`allocatedSeqs, cluster`links
    ensures loop.Valid() && cluster.Valid() && Later(old(loop.log), loop.log) &&
            loop.log.received == old(loop.log).received
    ensures loop.active.Keys <= old(loop.active).Keys
    ensures forall s :: s in old(loop.active) && !Schedulable(old(loop.active)[s]) ==>
      s in loop.active && loop.active[s] == old(loop.active)[s]
    ensures loop.limits.maxPrefillTokens > 0 ==> Total(loop.active) <= old(Total(loop.active))
    ensures Busy(old(loop.active), loop.limits) ==> Total(loop.active) < old(Total(loop.active))
    ensures old(Intact(loop, pipeline, cluster, parts, v)) && AllHealthy(pipeline.order, env.pass) ==> ok
    ensures quiet <==>
      (ok || Unmet(EnvsOf(pipeline.order, env.pass))) &&
      forall s :: s in old(loop.active) && s !in loop.active ==>
        if ok then AllStay(pipeline.order, env.free(s))
        else StayIn(pipeline.order, Rebalance.ReadyIds(registry.workers), env.free(s))
    ensures old(Intact(loop, pipeline, cluster, parts, v)) ==> (quiet <==> Intact(loop, pipeline, cluster, parts, v))
    ensures HoldNoMore(old(cluster.links), cluster.links, {}) &&
            pipeline.allocatedSeqs <= old(pipeline.allocatedSeqs)
    ensures old(Intact(loop, pipeline, cluster, parts, v)) && old(loop.Right({})) ==>
      loop.Right({}) && (ok && Blameless(loop.model, old(loop.log)) ==> Blameless(loop.model, loop.log))
  {
    hide StateOk, SentOk, Later, SampledRight, RightAnswers, FedOf, ValidLinks, CleanAll, DistributedPipeline.Serving,
      PlanOk, Extended, SeenAfter, VocabSize, EnvsOf, Truthful, InFirst, Total, Schedulable, HasWork, Busy, HandedOver,
      SentWith, W.BatchIds, ServesRest, Unmet, AllStay, StayIn, HoldNoMore, NothingUnread, Reaches, Blameless;
    HoldSame(cluster.links, {});
    SomeLater(loop.pending, loop.active, loop.log, {});
    PrefillsFit(loop.pending, loop.active, loop.log);
    var order := Keys(loop.active);
    var plan, chunks := BuildBatch(loop.active, order, loop.limits);
    if Busy(loop.active, loop.limits) { BusyHasWork(loop.active, order, loop.limits); }
    if plan.metas == [] { return true, true; }
    PartsSchedulable(plan, chunks, loop.active, loop.limits);
    PlanFacts(plan, chunks, loop.active, loop.limits);
    var rows := Pass(loop, pipeline, cluster, plan, env.pass, chunks, parts, v);
    ghost var passed := cluster.links;
    if rows.Err? {
      quiet := FailBatch(loop, pipeline, cluster, plan.metas, Rebalance.ReadyIds(registry.workers), env.free, parts);
      HoldOn(old(cluster.links), passed, cluster.links, {}, {});
      TotalShrinks(old(loop.active), loop.active, plan.metas[0].seqId);
      return false, quiet && Unmet(EnvsOf(pipeline.order, env.pass));
    }
    quiet := Deliver(loop, pipeline, cluster, plan, rows.value, env.free, chunks, parts);
    HoldOn(old(cluster.links), passed, cluster.links, {}, {});
    ok := true;
  }

  /** The workers hold only sequences that have been received and wait no more. */
  ghost predicate Unclaimed(links: Links, pending: seq<Request>, log: Log) {
    forall id, s :: id in links && s in links[id].worker.handles ==> s in log.received && !IsPending(pending, s)
  }

  lemma {:induction false} UnclaimedOn(was: Links, now: Links, more: set<SeqId>, pending: seq<Request>, log: Log,
                                       pending': seq<Request>, log': Log)
    requires HoldNoMore(was, now, more) && log.received.Keys <= log'.received.Keys
    requires forall s :: s in log.received && IsPending(pending', s) ==> IsPending(pending, s)
    requires forall s :: s in more ==> s in log'.received && !IsPending(pending', s)
    ensures Unclaimed(was, pending, log) ==> Unclaimed(now, pending', log')
  {
    hide IsPending;
  }

  /** The first that waits is known, and is not among the rest. */
  lemma {:induction false} AdmitClaims(pending: seq<Request>, active: Active, log: Log)
    requires StateOk(pending, active, log, {}) && pending != []
    ensures pending[0].seqId in log.received && !IsPending(pending[1..], pending[0].seqId)
    ensures forall s :: IsPending(pending[1..], s) ==> IsPending(pending, s)
  {
    hide Placed, Answered, Running;
    FirstWaits(pending, active, log);
    assert forall i :: 0 <= i < |pending[1..]| ==> pending[1..][i] == pending[i + 1];
  }

  lemma {:induction false} ServingQuiet(pipeline: DistributedPipeline, cluster: Cluster, parts: seq<LayerAssignment>,
                                        seen: map<SeqId, seq<nat>>)
    requires pipeline.Serving(cluster, parts, true, seen)
    ensures Distinct(pipeline.order) && IdSet(pipeline.order) <= cluster.links.Keys &&
            QuietOn(CleanAll(cluster.links), IdSet(pipeline.order))
  {
    hide Tracks, CleanAll, QuietOn;
    TracksQuiet(cluster.m, parts, pipeline.hiddenSize, CleanAll(cluster.links), true, seen);
  }

  /** The order in which the workers' replies arrive: any. */
  method ReplyOrder(order: seq<NodeId>) returns (arrival: seq<NodeId>)
    ensures Arrives(order, arrival)
  {
    arrival := *;
    if !Arrives(order, arrival) { arrival := order; }
  }

  /**
   Admission of the first waiting request: it becomes active if the pipeline allocates its
   caches, and is answered with an error otherwise.  `ok` says that no reply is left unread.
   */
  method AdmitFirst(loop: DistributedLoop, pipeline: DistributedPipeline, cluster: Cluster, env: Envs,
                    ghost parts: seq<LayerAssignment>, ghost v: nat) returns (admitted: bool, ok: bool)
    requires loop.Valid() && cluster.Valid() && loop.pending != []
    modifies loop`pending, loop`active, loop`log, pipeline`allocatedSeqs, cluster`links
    ensures loop.Valid() && cluster.Valid() && Later(old(loop.log), loop.log) &&
            loop.log.received == old(loop.log).received
    ensures loop.pending == old(loop.pending)[1..] &&
            loop.active.Keys == old(loop.active).Keys + if admitted then {old(loop.pending)[0].seqId} else {}
    ensures forall s :: s in old(loop.active) ==> s in loop.active && loop.active[s] == old(loop.active)[s]
    ensures if admitted then loop.log == old(loop.log)
            else ErrorsFor(old(loop.log), loop.log, {old(loop.pending)[0].seqId})
    ensures pipeline.allocatedSeqs <= old(pipeline.allocatedSeqs) + {old(loop.pending)[0].seqId}
    ensures Load(loop.pending, loop.active) < old(Load(loop.pending, loop.active))
    ensures old(Intact(loop, pipeline, cluster, parts, v)) ==> (ok <==> Intact(loop, pipeline, cluster, parts, v))
    ensures old(Intact(loop, pipeline, cluster, parts, v)) ==>
      var s := old(loop.pending)[0].seqId;
      var known, links := s in old(pipeline.allocatedSeqs), CleanAll(old(cluster.links));
      (admitted <==> !known && IdSet(pipeline.order) <= Acking(links, s, env.alloc)) &&
      (Sure(links, pipeline.order, known, s, env.alloc) ==> ok) &&
      (!known && !AllStay(pipeline.order, env.alloc) ==> !ok)
    ensures old(Unclaimed(cluster.links, loop.pending, loop.log)) ==>
      Unclaimed(cluster.links, loop.pending, loop.log)
    ensures old(loop.Right({})) ==> loop.Right({})
  {
    hide StateOk, SentOk, Later, SampledRight, RightAnswers, FedOf, ValidLinks, CleanAll, DistributedPipeline.Serving,
      VocabSize, AllocOutcome, QuietOn, Load, Sure, AllStay, Acking, DrainedBy, Unclaimed, HoldNoMore, ErrorsFor;
    ghost var was, s := cluster.links, loop.pending[0].seqId;
    if Intact(loop, pipeline, cluster, parts, v) { ServingQuiet(pipeline, cluster, parts, loop.Fed()); }
    AdmitClaims(loop.pending, loop.active, loop.log);
    SomeLater(loop.pending, loop.active, loop.log, {});
    FirstWaits(loop.pending, loop.active, loop.log);
    AdmitLess(loop.pending, loop.active, true);
    AdmitLess(loop.pending, loop.active, false);
    var arrival := ReplyOrder(pipeline.order);
    var dropped: set<NodeId> := *;
    var r, drained := pipeline.AllocCache(cluster, loop.pending[0].seqId, env.alloc, env.back, arrival, dropped,
                                          parts, true, loop.Fed());
    if old(Intact(loop, pipeline, cluster, parts, v)) {
      SureOutcome(cluster.m, CleanAll(was), CleanAll(cluster.links), pipeline.order, arrival, dropped,
                  s in old(pipeline.allocatedSeqs), s, env.alloc, env.back, r, drained);
    }
    admitted, ok := r.Ok?, r.Ok? || drained;
    if admitted { loop.Admit(); } else { loop.Refuse(); }
    UnclaimedOn(was, cluster.links, {s}, old(loop.pending), old(loop.log), loop.pending, loop.log);
  }

  // ----- requests and workers -----

  /** The channel is drained. */
  method ReceiveAll(loop: DistributedLoop, rs: seq<Request>)
    requires loop.Valid() && DistinctRequests(rs) && IdsIn(rs) !! loop.log.received.Keys
    modifies loop`pending, loop`log, loop`sent
    ensures loop.Valid() && Later(old(loop.log), loop.log) &&
            loop.log.received.Keys == old(loop.log).received.Keys + IdsIn(rs)
    ensures loop.pending == old(loop.pending) + rs && loop.Fed() == old(loop.Fed()) &&
            (old(loop.Right({})) ==> loop.Right({}))
    ensures Blameless(loop.model, old(loop.log)) ==> Blameless(loop.model, loop.log)
  {
    hide StateOk, SentOk, Later, SampledRight, RightAnswers, FedOf, Blameless;
    SomeLater(loop.pending, loop.active, loop.log, {});
    assert old(loop.pending) + rs[..0] == old(loop.pending);
    for i := 0 to |rs|
      invariant loop.Valid() && Later(old(loop.log), loop.log) &&
                loop.log.received.Keys == old(loop.log).received.Keys + IdsIn(rs[..i])
      invariant loop.pending == old(loop.pending) + rs[..i] && loop.Fed() == old(loop.Fed()) &&
                (old(loop.Right({})) ==> loop.Right({}))
      invariant Blameless(loop.model, old(loop.log)) ==> Blameless(loop.model, loop.log)
    {
      ghost var mid := loop.log;
      NextIn(rs, i);
      loop.Receive(rs[i]);
      LaterTransitive(old(loop.log), mid, loop.log);
      assert old(loop.pending) + rs[..i] + [rs[i]] == old(loop.pending) + rs[..i + 1];
    }
    assert rs[..|rs|] == rs;
  }

  lemma {:induction false} NextIn(rs: seq<Request>, i: nat)
    requires i < |rs| && DistinctRequests(rs)
    ensures IdsIn(rs[..i + 1]) == IdsIn(rs[..i]) + {rs[i].seqId} && rs[i].seqId !in IdsIn(rs[..i]) &&
            rs[i].seqId in IdsIn(rs)
  {
    assert rs[..i + 1] == rs[..i] + [rs[i]];
    forall s | s in IdsIn(rs[..i])
      ensures s in IdsIn(rs[..i + 1])
    {
      var k :| 0 <= k < i && rs[..i][k].seqId == s;
      assert rs[..i + 1][k].seqId == s;
    }
    assert rs[..i + 1][i].seqId in IdsIn(rs[..i + 1]);
  }

  /** Workers announce their leave between two messages. */
  method Announce(cluster: Cluster, ids: set<NodeId>)
    requires cluster.Valid()
    modifies cluster`links
    ensures cluster.Valid() && SameWorkers(old(cluster.links), cluster.links)
    ensures forall id :: id in cluster.links ==>
      cluster.links[id].outbox == old(cluster.links)[id].outbox + Intent(id in ids)
  {
    hide W.ValidWorker;
    cluster.links := map id | id in cluster.links ::
      Link(cluster.links[id].worker, cluster.links[id].outbox + Intent(id in ids));
  }

  lemma {:induction false} PolledSame(links: Links, ids: seq<NodeId>)
    ensures SameWorkers(links, Heartbeats.PolledLinks(links, ids))
  {
  }

  lemma {:induction false} BeatenSame(links: Links, ids: set<NodeId>, nonce: nat, answers: map<NodeId, nat>)
    ensures SameWorkers(links, Heartbeats.Beaten(links, ids, nonce, answers))
  {
  }

  method MarkAllDead(registry: PeerRegistry, ids: seq<NodeId>)
    requires registry.Valid()
    modifies registry
    ensures registry.Valid() && registry.workers.Keys == old(registry.workers).Keys
    ensures forall id :: id in registry.workers ==>
      registry.workers[id] == if id in ids then old(registry.workers)[id].(status := Dead)
        else old(registry.workers)[id]
  {
    hide WellFiled;
    for i := 0 to |ids|
      invariant registry.Valid() && registry.workers.Keys == old(registry.workers).Keys
      invariant forall id :: id in registry.workers ==>
        registry.workers[id] == if id in ids[..i] then old(registry.workers)[id].(status := Dead)
          else old(registry.workers)[id]
    {
      assert ids[..i + 1] == ids[..i] + [ids[i]];
      registry.MarkDead(ids[i]);
    }
    assert ids[..|ids|] == ids;
  }

  /** The worker holds no cache any more. */
  ghost predicate Emptied(w: W.Worker) {
    w.handles == map[] && w.pagedHandles == map[]
  }

  lemma {:induction false} ShutdownEmpties(m: Model, l: Link, env: Env)
    requires W.ValidWorker(m, l.worker)
    ensures Emptied(Handled(m, l, W.Shutdown, env).worker)
  {
  }

  /**
   Workers that leave are told to shut down, as far as they can be reached, and are dead; the
   others are not concerned.
   */
  method ShutDown(registry: PeerRegistry, cluster: Cluster, ids: seq<NodeId>, env: NodeId -> Env)
    requires registry.Valid() && cluster.Valid()
    modifies registry, cluster`links
    ensures registry.Valid() && registry.workers.Keys == old(registry.workers).Keys
    ensures forall id :: id in registry.workers ==>
      registry.workers[id] == if id in ids then old(registry.workers)[id].(status := Dead)
        else old(registry.workers)[id]
    ensures cluster.Valid() && cluster.links.Keys == old(cluster.links).Keys
    ensures forall id :: id in cluster.links ==>
      if id in ids then Emptied(cluster.links[id].worker) else cluster.links[id] == old(cluster.links)[id]
    ensures HoldNoMore(old(cluster.links), cluster.links, {})
  {
    hide WellFiled, Handled, CleanAll, Emptied, W.ValidWorker, HoldNoMore;
    HoldSame(cluster.links, {});
    for i := 0 to |ids|
      invariant HoldNoMore(old(cluster.links), cluster.links, {})
      invariant registry.Valid() && registry.workers == old(registry.workers)
      invariant cluster.Valid() && cluster.links.Keys == old(cluster.links).Keys
      invariant forall id :: id in cluster.links ==>
        if id in ids[..i] then Emptied(cluster.links[id].worker) else cluster.links[id] == old(cluster.links)[id]
    {
      assert ids[..i + 1] == ids[..i] + [ids[i]];
      if ids[i] in cluster.links { ShutdownEmpties(cluster.m, cluster.links[ids[i]], env(ids[i])); }
      ghost var before := cluster.links;
      var _ := cluster.Send(ids[i], W.Shutdown, env(ids[i]));
      HoldOn(old(cluster.links), before, cluster.links, {}, {});
    }
    assert ids[..|ids|] == ids;
    MarkAllDead(registry, ids);
  }

  /** The order of a map's keys with a given status. */
  method WithStatus(registry: PeerRegistry, status: Registry.Status) returns (ids: seq<NodeId>)
    ensures forall id :: id in ids <==> id in registry.workers && registry.workers[id].status == status
  {
    ids := [];
    var rest := registry.workers.Keys;
    while rest != {}
      invariant rest <= registry.workers.Keys
      invariant forall id :: id in ids <==>
        id in registry.workers && id !in rest && registry.workers[id].status == status
      decreases |rest|
    {
      var id :| id in rest;
      if registry.workers[id].status == status { ids := ids + [id]; }
      rest := rest - {id};
    }
  }

  /** The workers have the size of activations that the model needs. */
  predicate Fits(m: Model, links: Links, c: LayerScheduler.ModelConfig) {
    c.numLayers == |m.layers| && forall id :: id in links ==> links[id].worker.hiddenSize == c.hiddenSize
  }

  /** A new pipeline in place of this one will be laid out, if its workers are registered. */
  ghost predicate Fitting(m: Model, links: Links, order: seq<NodeId>, config: Config) {
    Distinct(order) && config.model.Some? && Fits(m, links, config.model.value)
  }

  lemma {:induction false} FitsOn(m: Model, was: Links, now: Links, c: LayerScheduler.ModelConfig)
    requires HoldNoMore(was, now, {})
    ensures Fits(m, now, c) <==> Fits(m, was, c)
  {
  }

  /**
   Nothing of the workers `order` is unread when they answer that they are reconfigured: their
   streams were empty, heartbeat acks included, they freed the sequences `gone`, if told to,
   without a word, and neither a heartbeat nor a leave came before the answer.
   */
  ghost predicate HeardOut(links: Links, order: seq<NodeId>, told: set<NodeId>, gone: set<SeqId>,
                           free: SeqId -> NodeId -> Env, env: NodeId -> Env) {
    forall id :: id in order && id in links ==>
      Rebalance.QuietThrough(links[id], id in told, gone, free, id, env(id))
  }

  lemma {:induction false} HeardOutParts(links: Links, given: Rebalance.Parts, told: set<NodeId>, gone: set<SeqId>,
                                         free: SeqId -> NodeId -> Env, env: NodeId -> Env)
    ensures Rebalance.AllQuietThrough(links, given, told, gone, free, env) <==>
            HeardOut(links, NodeIds(LayerScheduler.Layout(given)), told, gone, free, env)
  {
    hide Rebalance.QuietThrough;
    Rebalance.LayoutIds(given);
    var order := NodeIds(LayerScheduler.Layout(given));
    if HeardOut(links, order, told, gone, free, env) {
      forall i | 0 <= i < |given| && given[i].nodeId in links
        ensures var id := given[i].nodeId; Rebalance.QuietThrough(links[id], id in told, gone, free, id, env(id))
      {
        assert order[i] in order;
      }
    }
  }

  /** Sequences that have been freed in advance count as well. */
  lemma {:induction false} HeardOutFreed(was: Links, now: Links, order: seq<NodeId>, told: set<NodeId>,
                                         gone: set<SeqId>, free: SeqId -> NodeId -> Env, env: NodeId -> Env)
    requires FreedSilently(was, now, told, gone, free)
    ensures HeardOut(now, order, told, {}, free, env) <==> HeardOut(was, order, told, gone, free, env)
  {
    hide Silent;
    forall id | id in order && id in was
      ensures Rebalance.QuietThrough(now[id], id in told, {}, free, id, env(id)) <==>
              Rebalance.QuietThrough(was[id], id in told, gone, free, id, env(id))
    {
      assert FreedLink(was[id], now[id], if id in told then gone else {}, free, id);
    }
  }

  /** Only the links of the workers themselves matter. */
  lemma {:induction false} HeardOutSame(was: Links, now: Links, order: seq<NodeId>, told: set<NodeId>,
                                        gone: set<SeqId>, free: SeqId -> NodeId -> Env, env: NodeId -> Env)
    requires now.Keys == was.Keys && forall id :: id in order && id in was ==> now[id] == was[id]
    ensures HeardOut(now, order, told, gone, free, env) <==> HeardOut(was, order, told, gone, free, env)
  {
    hide Rebalance.QuietThrough;
  }

  /** A new pipeline over workers that can be reached and fit is laid out over them. */
  ghost predicate NewlyLaid(p: DistributedPipeline, cluster: Cluster, parts: seq<LayerAssignment>)
    reads p, cluster
  {
    p.order == NodeIds(parts) && Laid(cluster.m, parts, p.hiddenSize, CleanAll(cluster.links))
  }

  /** A new pipeline for the workers that are left, if the model is known. */
  method Rebuild(pipeline: DistributedPipeline, cluster: Cluster, registry: PeerRegistry, config: Config,
                 skip: set<NodeId>, envs: Envs)
    returns (r: Result<DistributedPipeline>, fits: bool, ghost parts: seq<LayerAssignment>)
    requires cluster.Valid() && registry.Valid() && config.Valid() && config.model.Some?
    modifies pipeline`allocatedSeqs, cluster`links, registry
    ensures cluster.Valid() && registry.Valid() && pipeline.allocatedSeqs == {}
    ensures r.Ok? ==>
      fresh(r.value) && r.value.allocatedSeqs == {} &&
      forall id :: id in r.value.order ==>
        id in old(registry.workers) && old(registry.workers)[id].status != Dead && id !in skip
    ensures Rebalance.Offered(old(registry.workers), skip, config.model.value, config.mode, config.maxSeqLen, r.Ok?)
    ensures fits <==>
      r.Ok? && Distinct(pipeline.order) && Fits(cluster.m, old(cluster.links), config.model.value) &&
      IdSet(r.value.order) <= cluster.links.Keys
    ensures fits ==>
      NewlyLaid(r.value, cluster, parts) &&
      (NothingUnread(cluster.links, r.value.order) <==>
         HeardOut(old(cluster.links), r.value.order, IdSet(pipeline.order) * Rebalance.ReadyIds(old(registry.workers)),
                  old(pipeline.allocatedSeqs), envs.free, envs.told))
    ensures registry.workers.Keys == old(registry.workers).Keys && HoldNoMore(old(cluster.links), cluster.links, {})
    ensures (forall id :: id in skip && id in old(registry.workers) ==> old(registry.workers)[id].status != Ready) ==>
      Rebalance.SameWorkers(old(cluster.links), cluster.links, skip)
  {
    hide CleanAll, WellFiled, Rebalance.DistinctParts, InOrder, DistributedPipeline.Serving, Laid, Tiles,
      Rebalance.AllQuietThrough, Rebalance.SameWorkers, ValidLinks, HeardOut, HoldNoMore, NothingUnread,
      Rebalance.Offered;
    var c := config.model.value;
    var known := Fits(cluster.m, cluster.links, c) && Distinct(pipeline.order);
    var order;
    ghost var given: Rebalance.Parts;
    r, order, given := Rebalance.ForcedRebalance(registry, pipeline, cluster, c, config.mode, config.maxSeqLen, skip,
                                                envs.free, envs.told, true);
    parts := LayerScheduler.Layout(given);
    fits := known && r.Ok? && IdSet(r.value.order) <= cluster.links.Keys;
    if fits {
      forall i | 0 <= i < |given|
        ensures given[i].nodeId in old(cluster.links)
      {
        assert r.value.order[i] in IdSet(r.value.order);
      }
      assert Rebalance.Reachable(old(cluster.links), given, c.hiddenSize);
      HeardOutParts(old(cluster.links), given, IdSet(pipeline.order) * Rebalance.ReadyIds(old(registry.workers)),
                    old(pipeline.allocatedSeqs), envs.free, envs.told);
      NewlyServes(r.value, cluster, parts);
    }
  }

  /** A pipeline that is laid out serves from scratch iff nothing is unread. */
  lemma {:induction false} NewlyServes(p: DistributedPipeline, cluster: Cluster, parts: seq<LayerAssignment>)
    requires NewlyLaid(p, cluster, parts)
    ensures p.Serving(cluster, parts, true, map[]) <==> NothingUnread(cluster.links, p.order)
  {
    hide Laid, CleanAll, NothingUnread;
    KeepsServes(p, cluster, parts, map[]);
  }

  /**
   Workers have died: the sequences of the pipeline are aborted and answered with an error; the
   rest of the workers get a new pipeline without any dead worker, or the loop is degraded and
   no request waits.  A new pipeline that `fits` is laid out over its workers, and serves iff they
   are heard out.
   */
  method HandleDeaths(loop: DistributedLoop, pipeline: DistributedPipeline, cluster: Cluster, registry: PeerRegistry,
                      config: Config, dead: seq<NodeId>, envs: Envs)
    returns (p: DistributedPipeline, fits: bool, ghost parts: seq<LayerAssignment>)
    requires loop.Valid() && cluster.Valid() && registry.Valid() && config.Valid()
    modifies loop`pending, loop`active, loop`log, loop`degraded, pipeline`allocatedSeqs, cluster`links, registry
    ensures loop.Valid() && cluster.Valid() && registry.Valid() && Later(old(loop.log), loop.log) &&
            loop.log.received == old(loop.log).received
    ensures loop.active.Keys == old(loop.active).Keys - old(pipeline.allocatedSeqs) &&
            (old(loop.Right({})) ==> loop.Right({}))
    ensures if p == pipeline then loop.degraded && loop.pending == []
            else
              fresh(p) && p.allocatedSeqs == {} && loop.degraded == old(loop.degraded) &&
              loop.pending == old(loop.pending) &&
              forall id :: id in p.order ==>
                id !in dead && id in old(registry.workers) && old(registry.workers)[id].status != Dead
    ensures if config.model.None? then p == pipeline
            else Rebalance.Offered(old(registry.workers), IdSet(dead), config.model.value, config.mode,
                                   config.maxSeqLen, p != pipeline)
    ensures ErrorsFor(old(loop.log), loop.log, old(loop.active).Keys * old(pipeline.allocatedSeqs) +
                                               if p == pipeline then WaitingIds(old(loop.pending)) else {})
    ensures fits <==>
      p == pipeline ||
      (Fitting(cluster.m, old(cluster.links), pipeline.order, config) && IdSet(p.order) <= cluster.links.Keys)
    ensures p != pipeline && fits ==>
      NewlyLaid(p, cluster, parts) &&
      (NothingUnread(cluster.links, p.order) <==>
         HeardOut(old(cluster.links), p.order,
                  IdSet(pipeline.order) * (Rebalance.ReadyIds(old(registry.workers)) - IdSet(dead)),
                  old(pipeline.allocatedSeqs), envs.free, envs.told))
    ensures registry.workers.Keys == old(registry.workers).Keys && HoldNoMore(old(cluster.links), cluster.links, {})
  {
    hide StateOk, SentOk, Later, SampledRight, RightAnswers, FedOf, ValidLinks, CleanAll, FreedWorkers, WellFiled,
      DistributedPipeline.Serving, FreedSilently, NewlyLaid, Fits, HeardOut, HoldNoMore, NothingUnread, ErrorsFor,
      Rebalance.Offered;
    p, fits, parts := pipeline, true, [];
    ghost var failed := loop.active.Keys * pipeline.allocatedSeqs;
    WaitApart(loop.pending, loop.active, loop.log);
    assert failed + {} == failed;
    MarkAllDead(registry, dead);
    assert Rebalance.ReadyIds(registry.workers) == Rebalance.ReadyIds(old(registry.workers)) - IdSet(dead);
    ghost var left := registry.workers;
    var aborted := pipeline.AbortAll(cluster, Rebalance.ReadyIds(registry.workers), envs.free);
    loop.AbortEach(aborted);
    assert IdsOf(aborted) == old(pipeline.allocatedSeqs);
    ghost var told := IdSet(pipeline.order) * Rebalance.ReadyIds(registry.workers);
    FreedHold(old(cluster.links), cluster.links, told, old(pipeline.allocatedSeqs));
    if config.model.Some? {
      var r;
      ghost var freed := cluster.links;
      FitsOn(cluster.m, old(cluster.links), freed, config.model.value);
      r, fits, parts := Rebuild(pipeline, cluster, registry, config, IdSet(dead), envs);
      Rebalance.OfferedAlike(old(registry.workers), left, IdSet(dead), config.model.value, config.mode,
                             config.maxSeqLen, r.Ok?);
      HoldOn(old(cluster.links), freed, cluster.links, {}, {});
      if r.Ok? {
        if fits {
          HeardOutFreed(old(cluster.links), freed, r.value.order, told, old(pipeline.allocatedSeqs), envs.free,
                        envs.told);
        }
        return r.value, fits, parts;
      }
      fits := true;
    }
    loop.degraded := true;
    ghost var mid := loop.log;
    loop.FailPending();
    LaterTransitive(old(loop.log), mid, loop.log);
    ErrorsJoin(old(loop.log), mid, loop.log, failed, WaitingIds(old(loop.pending)));
  }

  ghost function DrainingIds(workers: Workers): set<NodeId> {
    set id | id in workers && workers[id].status == Draining
  }

  /**
   Nothing is active: workers that leave are shut down and workers that wait are taken in, with a
   new pipeline.  Those that have left hold no caches, whether there is a new pipeline or not.  A
   new pipeline that `fits` is laid out over its workers, and serves iff they are heard out.
   */
  method HandleMembership(loop: DistributedLoop, pipeline: DistributedPipeline, cluster: Cluster,
                          registry: PeerRegistry, config: Config, envs: Envs)
    returns (p: DistributedPipeline, changed: bool, fits: bool, ghost parts: seq<LayerAssignment>)
    requires loop.Valid() && cluster.Valid() && registry.Valid() && config.Valid() && loop.active == map[] &&
             !loop.degraded
    modifies loop`degraded, pipeline`allocatedSeqs, cluster`links, registry
    ensures cluster.Valid() && registry.Valid() && (p == pipeline || (fresh(p) && p.allocatedSeqs == {}))
    ensures loop.degraded <==> changed && config.model.Some? && p == pipeline
    ensures p != pipeline ==>
      changed && forall id :: id in p.order ==>
        id in old(registry.workers) && old(registry.workers)[id].status !in {Dead, Draining}
    ensures forall id ::
      id in old(cluster.links) && id in old(registry.workers) && old(registry.workers)[id].status == Draining ==>
      id in cluster.links && Emptied(cluster.links[id].worker)
    ensures changed <==>
      exists id :: id in old(registry.workers) && old(registry.workers)[id].status in {Draining, Pending}
    ensures changed && config.model.Some? ==>
      Rebalance.Offered(old(registry.workers), DrainingIds(old(registry.workers)), config.model.value, config.mode,
                        config.maxSeqLen, p != pipeline)
    ensures !changed ==>
      p == pipeline && pipeline.allocatedSeqs == old(pipeline.allocatedSeqs) && cluster.links == old(cluster.links) &&
      registry.workers == old(registry.workers) && loop.degraded == old(loop.degraded)
    ensures fits <==>
      !changed || loop.degraded ||
      (p != pipeline && Fitting(cluster.m, old(cluster.links), pipeline.order, config) &&
       IdSet(p.order) <= cluster.links.Keys)
    ensures p != pipeline && fits ==>
      NewlyLaid(p, cluster, parts) &&
      (NothingUnread(cluster.links, p.order) <==>
         HeardOut(old(cluster.links), p.order, IdSet(pipeline.order) * Rebalance.ReadyIds(old(registry.workers)),
                  old(pipeline.allocatedSeqs), envs.free, envs.told))
    ensures registry.workers.Keys == old(registry.workers).Keys && HoldNoMore(old(cluster.links), cluster.links, {})
  {
    hide StateOk, SentOk, ValidLinks, WellFiled, DistributedPipeline.Serving, NewlyLaid, Fits, Emptied, HeardOut,
      HoldNoMore, NothingUnread, Rebalance.Offered;
    HoldSame(cluster.links, {});
    p, fits, parts := pipeline, true, [];
    var draining := WithStatus(registry, Draining);
    var joining := WithStatus(registry, Pending);
    changed := draining != [] || joining != [];
    SomeStatus(registry.workers, draining, joining);
    if changed {
      ShutDown(registry, cluster, draining, envs.told);
      assert Rebalance.ReadyIds(registry.workers) == Rebalance.ReadyIds(old(registry.workers));
      assert IdSet(draining) == DrainingIds(old(registry.workers));
      ghost var left := registry.workers;
      fits := false;
      if config.model.Some? {
        var r;
        ghost var shut := cluster.links;
        FitsOn(cluster.m, old(cluster.links), shut, config.model.value);
        r, fits, parts := Rebuild(pipeline, cluster, registry, config, IdSet(draining), envs);
        Rebalance.OfferedAlike(old(registry.workers), left, IdSet(draining), config.model.value, config.mode,
                               config.maxSeqLen, r.Ok?);
        HoldOn(old(cluster.links), shut, cluster.links, {}, {});
        if r.Ok? {
          p := r.value;
          HeardOutSame(old(cluster.links), shut, p.order,
                       IdSet(pipeline.order) * Rebalance.ReadyIds(old(registry.workers)),
                       old(pipeline.allocatedSeqs), envs.free, envs.told);
        } else {
          loop.degraded, fits := true, true;
        }
      }
    }
  }

  lemma {:induction false} SomeStatus(workers: Workers, draining: seq<NodeId>, joining: seq<NodeId>)
    requires forall id :: id in draining <==> id in workers && workers[id].status == Draining
    requires forall id :: id in joining <==> id in workers && workers[id].status == Pending
    ensures draining != [] || joining != [] <==> exists id :: id in workers && workers[id].status in {Draining, Pending}
  {
    if draining != [] { assert draining[0] in draining; }
    if joining != [] { assert joining[0] in joining; }
  }

  // ----- iterations and runs -----

  /** A pipeline that was built elsewhere, from assignments that are accepted, takes the place of the old one. */
  method Replace(loop: DistributedLoop, pipeline: DistributedPipeline, parts: seq<LayerAssignment>)
    returns (p: DistributedPipeline)
    modifies loop`degraded
    ensures p == pipeline || (fresh(p) && p.allocatedSeqs == {} && p.order == NodeIds(parts))
    ensures p != pipeline <==> parts != [] && Contiguous(parts, 0)
    ensures loop.degraded == (old(loop.degraded) && p == pipeline)
  {
    p := pipeline;
    var built := NewPipeline(parts, pipeline.hiddenSize);
    if built.Ok? {
      p := built.value;
      loop.degraded := false;
    }
  }

  /** The request that ends a wait. */
  method Awake(loop: DistributedLoop, pipeline: DistributedPipeline, wake: Wake) returns (p: DistributedPipeline)
    requires loop.Valid() && (wake.Arrival? ==> wake.request.seqId !in loop.log.received)
    modifies loop`pending, loop`log, loop`sent, loop`degraded
    ensures loop.Valid() && Later(old(loop.log), loop.log) && (p == pipeline || fresh(p))
    ensures loop.log.received.Keys == old(loop.log).received.Keys + if wake.Arrival? then {wake.request.seqId} else {}
    ensures loop.Fed() == old(loop.Fed()) && (old(loop.Right({})) ==> loop.Right({}))
    ensures loop.pending == if wake.Arrival? then old(loop.pending) + [wake.request] else old(loop.pending)
    ensures !wake.Replaced? ==> loop.degraded == old(loop.degraded) && p == pipeline
    ensures wake.Replaced? ==>
      (p != pipeline <==> wake.parts != [] && Contiguous(wake.parts, 0)) &&
      (p != pipeline ==> p.order == NodeIds(wake.parts) && p.allocatedSeqs == {} && !loop.degraded)
    ensures Blameless(loop.model, old(loop.log)) ==> Blameless(loop.model, loop.log)
    ensures forall s :: s in old(loop.log).events && s in old(loop.log).received ==>
      s in loop.log.events && loop.log.events[s] == old(loop.log).events[s]
  {
    hide StateOk, SentOk, Later, SampledRight, RightAnswers, FedOf, Blameless;
    SomeLater(loop.pending, loop.active, loop.log, {});
    p := pipeline;
    match wake {
      case Arrival(r) => loop.Receive(r);
      case Replaced(parts) => p := Replace(loop, pipeline, parts);
      case _ =>
    }
  }

  /** No more requests, and no other pipeline. */
  ghost predicate Quiet(t: Tick) {
    t.swap.None? && t.arrivals == [] && t.closed && t.wake.Closed?
  }

  /** Nobody is waiting to leave or to join. */
  ghost predicate Steady(workers: Workers) {
    forall id :: id in workers ==> workers[id].status !in {Draining, Pending}
  }

  /** The worker with the fewest free blocks has more than the reserve, or none at all. */
  ghost predicate Admissible(workers: Workers, reserve: nat) {
    (forall id :: id in workers && workers[id].Serving() ==> workers[id].freeBlocks > reserve) ||
    (exists id :: id in workers && workers[id].Serving() && workers[id].freeBlocks == 0)
  }

  /** One more round unanswered, and still nobody counts as dead. */
  ghost predicate Patient(history: seq<Heartbeats.Event>, maxMissed: nat) {
    forall id :: Heartbeats.MissedSince(history, id) + 1 < maxMissed
  }

  /** No worker has missed more than n rounds since. */
  ghost predicate MissedAtMost(was: seq<Heartbeats.Event>, now: seq<Heartbeats.Event>, n: nat) {
    forall id :: Heartbeats.MissedSince(now, id) <= Heartbeats.MissedSince(was, id) + n
  }

  /** The workers that serve are those of the pipeline. */
  ghost predicate Enlisted(workers: Workers, order: seq<NodeId>) {
    forall id :: id in workers && workers[id].Serving() ==> id in order
  }

  /** A round finds out about the workers; those that have nothing but acks unread keep their standing. */
  lemma {:induction false} HeardStanding(links: Links, was: Workers, now: Workers, order: seq<NodeId>,
                                         pending: Option<nat>)
    requires now.Keys == was.Keys
    requires forall id :: id in was ==>
      now[id] == Heartbeats.HeardAs(was[id], Heartbeats.Found(links, was, id), pending)
    ensures ServeOn(was, now) && (Enlisted(was, order) ==> Enlisted(now, order))
    ensures Enlisted(was, order) && NothingUnread(links, order) && Steady(was) ==> Steady(now)
  {
    forall id | id in was
      ensures (now[id].Serving() ==> was[id].Serving()) &&
              (Enlisted(was, order) && NothingUnread(links, order) ==> now[id].status == was[id].status)
    {
      if was[id].Serving() && id in order && NothingUnread(links, order) { assert AllAcks(links[id].outbox); }
    }
  }

  lemma {:induction false} PolledQuiet(links: Links, ids: seq<NodeId>, order: seq<NodeId>)
    requires NothingUnread(links, order)
    ensures NothingUnread(Heartbeats.PolledLinks(links, ids), order)
  {
  }

  lemma {:induction false} BeatenQuiet(links: Links, ids: set<NodeId>, nonce: nat, answers: map<NodeId, nat>,
                                       order: seq<NodeId>)
    requires NothingUnread(links, order)
    ensures NothingUnread(Heartbeats.Beaten(links, ids, nonce, answers), order)
  {
  }

  /** Who is told dead was missed too often. */
  lemma {:induction false} NobodyDead(was: seq<Heartbeats.Event>, now: seq<Heartbeats.Event>, workers: Workers,
                                      order: seq<NodeId>, credited: set<NodeId>, dead: seq<NodeId>, maxMissed: nat)
    requires InOrder(workers, order)
    requires forall id :: Heartbeats.MissedSince(now, id) == multiset(order)[id] + if id in credited then 0
      else Heartbeats.MissedSince(was, id)
    requires forall id :: id in dead <==> id in order && Heartbeats.MissedSince(now, id) >= maxMissed
    ensures MissedAtMost(was, now, 1) && (Patient(was, maxMissed) ==> dead == [])
  {
    hide Heartbeats.MissedSince;
    Heartbeats.OrderOnce(workers, order);
    forall id
      ensures Heartbeats.MissedSince(now, id) <= Heartbeats.MissedSince(was, id) + 1
    {
      Heartbeats.ListedOnce(order, id);
    }
    if dead != [] { assert dead[0] in dead; }
  }

  /**
   The heartbeat: the last one is evaluated, the workers found dead are dealt with, and the next
   one is sent.  `calm` says that nothing has become of it.  As long as nobody can count as dead the
   loop and its pipeline are not concerned.
   */
  method Heartbeat(loop: DistributedLoop, pipeline: DistributedPipeline, cluster: Cluster, registry: PeerRegistry,
                   tracker: Heartbeats.HeartbeatTracker, config: Config, beats: Beats, envs: Envs,
                   ghost parts: seq<LayerAssignment>, ghost v: nat)
    returns (p: DistributedPipeline, ok: bool, calm: bool, ghost parts': seq<LayerAssignment>, ghost dead: seq<NodeId>,
             ghost heard: Workers)
    requires loop.Valid() && cluster.Valid() && registry.Valid() && tracker.Valid() && config.Valid()
    modifies loop`pending, loop`active, loop`log, loop`degraded, pipeline`allocatedSeqs, cluster`links, registry,
      tracker
    ensures loop.Valid() && cluster.Valid() && registry.Valid() && tracker.Valid() && Later(old(loop.log), loop.log) &&
            (p == pipeline || fresh(p)) && loop.log.received == old(loop.log).received
    ensures old(loop.Right({})) ==> loop.Right({})
    ensures tracker.pendingNonce == Some(beats.nonce)
    ensures ok && old(Held(loop, pipeline, cluster, parts, v)) ==> Held(loop, p, cluster, parts', v)
    ensures if old(tracker.pendingNonce).Some? then
              RoundFound(old(cluster.links), old(registry.workers), old(tracker.history), old(tracker.pendingNonce),
                         heard, tracker.history, config.maxMissed, dead)
            else dead == [] && heard == old(registry.workers) && tracker.history == old(tracker.history)
    ensures calm <==> heard == old(registry.workers) && dead == []
    ensures if dead == [] then p == pipeline && registry.workers == heard && loop.log == old(loop.log)
            else
              (p == pipeline ==> loop.degraded && loop.pending == []) &&
              loop.active.Keys == old(loop.active).Keys - old(pipeline.allocatedSeqs) &&
              forall id :: id in p.order && p != pipeline ==> id !in dead
    ensures calm ==>
      p == pipeline && registry.workers == old(registry.workers) && loop.pending == old(loop.pending) &&
      loop.active == old(loop.active) && loop.degraded == old(loop.degraded)
    ensures ok <==>
      p == pipeline ||
      (Fitting(cluster.m, old(cluster.links), pipeline.order, config) && IdSet(p.order) <= cluster.links.Keys)
    ensures p != pipeline ==>
      IdSet(p.order) <= old(registry.workers).Keys && p.allocatedSeqs == {} && (ok ==> Distinct(p.order))
    ensures Patient(old(tracker.history), config.maxMissed) ==>
      p == pipeline && parts' == parts && pipeline.allocatedSeqs == old(pipeline.allocatedSeqs) &&
      loop.pending == old(loop.pending) && loop.active == old(loop.active) && loop.degraded == old(loop.degraded) &&
      loop.log == old(loop.log) &&
      Spared(old(cluster.links), old(registry.workers), cluster.links, registry.workers, pipeline.order)
    ensures Patient(old(tracker.history), config.maxMissed) ==>
      AnswersUnread(old(registry.workers), cluster.links, registry.workers, beats.answers)
    ensures MissedAtMost(old(tracker.history), tracker.history, 1)
    ensures registry.workers.Keys == old(registry.workers).Keys && HoldNoMore(old(cluster.links), cluster.links, {})
    ensures loop.pending == [] || loop.pending == old(loop.pending)
  {
    hide StateOk, SentOk, Later, SampledRight, RightAnswers, FedOf, ValidLinks, WellFiled, CleanAll, VocabSize, Keeps,
      SameWorkers, NewlyLaid, HoldNoMore, Unclaimed, NothingUnread, Spared, Fitting, Patient, MissedAtMost,
      AnswersUnread, RoundFound;
    SomeLater(loop.pending, loop.active, loop.log, {});
    p, ok, calm, parts', dead, heard := pipeline, true, true, parts, [], registry.workers;
    HoldSame(cluster.links, {});
    NothingHeard(cluster.links, registry.workers, pipeline.order);
    NothingMissed(tracker.history, 1);
    if tracker.pendingNonce.Some? {
      p, ok, calm, parts', dead, heard := Evaluate(loop, pipeline, cluster, registry, tracker, config, envs, parts, v);
    }
    ghost var mid := cluster.links;
    SendNext(tracker, registry, cluster, beats, pipeline.order, old(cluster.links), old(registry.workers));
    SameHold(mid, cluster.links);
    HoldOn(old(cluster.links), mid, cluster.links, {}, {});
    HoldKeys(mid, cluster.links);
    KeepsOn(cluster.m, p.order, p.hiddenSize, p.allocatedSeqs, mid, cluster.links, parts', loop.Fed());
  }

  lemma {:induction false} NothingMissed(history: seq<Heartbeats.Event>, n: nat)
    ensures MissedAtMost(history, history, n)
  {
    hide Heartbeats.MissedSince;
  }

  /** The next heartbeat is sent; nothing but acks comes of it. */
  method SendNext(tracker: Heartbeats.HeartbeatTracker, registry: PeerRegistry, cluster: Cluster, beats: Beats,
                  ghost order: seq<NodeId>, ghost links: Links, ghost workers: Workers)
    requires tracker.Valid() && cluster.Valid()
    modifies tracker`pendingNonce, cluster`links
    ensures tracker.Valid() && cluster.Valid() && tracker.pendingNonce == Some(beats.nonce)
    ensures SameWorkers(old(cluster.links), cluster.links)
    ensures old(Spared(links, workers, cluster.links, registry.workers, order)) ==>
      Spared(links, workers, cluster.links, registry.workers, order)
    ensures old(Spared(links, workers, cluster.links, registry.workers, order)) ==>
      AnswersUnread(workers, cluster.links, registry.workers, beats.answers)
  {
    hide ValidLinks, SameWorkers, Heartbeats.Beaten, Heartbeats.MissedSince, Enlisted, NothingUnread, Steady;
    ghost var mid := cluster.links;
    Heartbeats.SendHeartbeats(tracker, registry, cluster, beats.nonce, beats.answers);
    ghost var serving := set id | id in registry.workers && registry.workers[id].Serving();
    BeatenSame(mid, serving, beats.nonce, beats.answers);
    BeatenAnswers(mid, serving, beats.nonce, beats.answers);
    SameKeys(mid, cluster.links);
    if Spared(links, workers, mid, registry.workers, order) {
      SparedOn(links, workers, mid, cluster.links, registry.workers, order, serving, beats.nonce, beats.answers);
    }
  }

  /**
   Of the workers of the order no message but acks is added to the streams or taken from them, and
   the standing of the workers is what it was.
   */
  ghost predicate Spared(links: Links, workers: Workers, links': Links, workers': Workers, order: seq<NodeId>) {
    ServeOn(workers, workers') && (Enlisted(workers, order) ==> Enlisted(workers', order)) &&
    (NothingUnread(links, order) ==> NothingUnread(links', order)) &&
    (NothingUnread(links, order) && Enlisted(workers, order) && Steady(workers) ==> Steady(workers'))
  }

  /** Who served goes on serving or is going to leave. */
  ghost predicate ServeOn(workers: Workers, workers': Workers) {
    forall id :: id in workers && workers[id].Serving() ==>
      id in workers' && (workers'[id].Serving() || workers'[id].status == Draining)
  }

  /** Workers that served and are not going to leave have their answers to the heartbeat unread. */
  ghost predicate AnswersUnread(workers: Workers, links': Links, workers': Workers, answers: map<NodeId, nat>) {
    forall id :: id in answers && id in workers && workers[id].Serving() && id in workers' &&
                 workers'[id].status != Draining && id in links' ==>
      links'[id].outbox != []
  }

  lemma {:induction false} NothingHeard(links: Links, workers: Workers, order: seq<NodeId>)
    ensures Spared(links, workers, links, workers, order)
  {
  }

  lemma {:induction false} SparedOn(links: Links, workers: Workers, mid: Links, links': Links, workers': Workers,
                                    order: seq<NodeId>, serving: set<NodeId>, nonce: nat, answers: map<NodeId, nat>)
    requires Spared(links, workers, mid, workers', order) && links' == Heartbeats.Beaten(mid, serving, nonce, answers)
    ensures Spared(links, workers, links', workers', order)
  {
    hide NothingUnread, Enlisted, Steady, Heartbeats.Beaten, ServeOn;
    if NothingUnread(mid, order) { BeatenQuiet(mid, serving, nonce, answers, order); }
  }

  lemma {:induction false} BeatenAnswers(links: Links, ids: set<NodeId>, nonce: nat, answers: map<NodeId, nat>)
    ensures forall id :: id in links && id in ids && id in answers ==>
      id in Heartbeats.Beaten(links, ids, nonce, answers) &&
      Heartbeats.Beaten(links, ids, nonce, answers)[id].outbox != []
  {
  }

  lemma {:induction false} UncreditedUnknown(links: Links, workers: Workers, pending: Option<nat>)
    ensures forall id :: Heartbeats.Credited(Heartbeats.Found(links, workers, id), pending) ==> id in workers
  {
  }

  lemma {:induction false} NewlyDistinct(p: DistributedPipeline, cluster: Cluster, parts: seq<LayerAssignment>)
    requires NewlyLaid(p, cluster, parts)
    ensures Distinct(p.order)
  {
    hide Tiles, ValidLinks, LaidAt, CleanAll;
  }

  /**
   What a round finds: every worker is heard, those that have acked the pending heartbeat count from
   0 and the others on, one more for who still serves, and dead are those of them who reach the limit.
   */
  ghost predicate FoundIn(links: Links, workers: Workers, history: seq<Heartbeats.Event>, pending: Option<nat>,
                          workers': Workers, history': seq<Heartbeats.Event>, maxMissed: nat, dead: seq<NodeId>,
                          serving: seq<NodeId>) {
    workers'.Keys == workers.Keys && InOrder(workers', serving) &&
    (forall id :: id in workers ==>
       workers'[id] == Heartbeats.HeardAs(workers[id], Heartbeats.Found(links, workers, id), pending)) &&
    (forall id ::
       Heartbeats.MissedSince(history', id) == multiset(serving)[id] +
         if Heartbeats.Credited(Heartbeats.Found(links, workers, id), pending) then 0
         else Heartbeats.MissedSince(history, id)) &&
    (forall id :: id in dead <==> id in serving && Heartbeats.MissedSince(history', id) >= maxMissed)
  }

  ghost predicate RoundFound(links: Links, workers: Workers, history: seq<Heartbeats.Event>, pending: Option<nat>,
                             workers': Workers, history': seq<Heartbeats.Event>, maxMissed: nat, dead: seq<NodeId>) {
    exists serving :: FoundIn(links, workers, history, pending, workers', history', maxMissed, dead, serving)
  }

  /** A round: nobody is found dead who was not missed too often, and the pipeline's workers are not concerned. */
  method Round(tracker: Heartbeats.HeartbeatTracker, registry: PeerRegistry, cluster: Cluster, maxMissed: nat,
               ghost order: seq<NodeId>) returns (dead: seq<NodeId>)
    requires tracker.Valid() && registry.Valid() && cluster.Valid()
    modifies tracker`missedCounts, tracker`history, registry, cluster`links
    ensures tracker.Valid() && registry.Valid() && cluster.Valid()
    ensures SameWorkers(old(cluster.links), cluster.links) && registry.workers.Keys == old(registry.workers).Keys
    ensures MissedAtMost(old(tracker.history), tracker.history, 1) &&
            (Patient(old(tracker.history), maxMissed) ==> dead == [])
    ensures RoundFound(old(cluster.links), old(registry.workers), old(tracker.history), tracker.pendingNonce,
                       registry.workers, tracker.history, maxMissed, dead)
    ensures Spared(old(cluster.links), old(registry.workers), cluster.links, registry.workers, order)
  {
    hide WellFiled, ValidLinks, SameWorkers, InOrder, Heartbeats.PolledLinks, Heartbeats.MissedSince,
      Heartbeats.HeardAs, Heartbeats.Found, NothingUnread, Steady, Enlisted, MissedAtMost, Patient, ServeOn;
    ghost var was, history, before := cluster.links, tracker.history, registry.workers;
    var serving;
    serving, dead := Heartbeats.HeartbeatRound(tracker, registry, cluster, maxMissed);
    ghost var credited := set id | id in before &&
      Heartbeats.Credited(Heartbeats.Found(was, before, id), tracker.pendingNonce);
    UncreditedUnknown(was, before, tracker.pendingNonce);
    NobodyDead(history, tracker.history, registry.workers, serving, credited, dead, maxMissed);
    HeardStanding(was, before, registry.workers, order, tracker.pendingNonce);
    ghost var polled :| ServingOnce(before, polled) && cluster.links == Heartbeats.PolledLinks(was, polled);
    PolledSame(was, polled);
    if NothingUnread(was, order) { PolledQuiet(was, polled, order); }
    assert FoundIn(was, before, history, tracker.pendingNonce, registry.workers, tracker.history, maxMissed, dead,
                   serving);
  }

  /** The last heartbeat is evaluated, and the workers found dead are dealt with. */
  method Evaluate(loop: DistributedLoop, pipeline: DistributedPipeline, cluster: Cluster, registry: PeerRegistry,
                  tracker: Heartbeats.HeartbeatTracker, config: Config, envs: Envs, ghost parts: seq<LayerAssignment>,
                    ghost v: nat)
    returns (p: DistributedPipeline, ok: bool, calm: bool, ghost parts': seq<LayerAssignment>, ghost dead: seq<NodeId>,
             ghost heard: Workers)
    requires loop.Valid() && cluster.Valid() && registry.Valid() && tracker.Valid() && config.Valid()
    modifies loop`pending, loop`active, loop`log, loop`degraded, pipeline`allocatedSeqs, cluster`links, registry,
             tracker`missedCounts, tracker`history
    ensures loop.Valid() && cluster.Valid() && registry.Valid() && tracker.Valid() && Later(old(loop.log), loop.log) &&
            (p == pipeline || fresh(p)) && loop.log.received == old(loop.log).received
    ensures old(loop.Right({})) ==> loop.Right({})
    ensures ok && old(Held(loop, pipeline, cluster, parts, v)) ==> Held(loop, p, cluster, parts', v)
    ensures RoundFound(old(cluster.links), old(registry.workers), old(tracker.history), tracker.pendingNonce, heard,
                       tracker.history, config.maxMissed, dead)
    ensures calm <==> heard == old(registry.workers) && dead == []
    ensures if dead == [] then p == pipeline && registry.workers == heard && loop.log == old(loop.log)
            else
              (p == pipeline ==> loop.degraded && loop.pending == []) &&
              loop.active.Keys == old(loop.active).Keys - old(pipeline.allocatedSeqs) &&
              forall id :: id in p.order && p != pipeline ==> id !in dead
    ensures calm ==>
      p == pipeline && registry.workers == old(registry.workers) && loop.pending == old(loop.pending) &&
      loop.active == old(loop.active) && loop.degraded == old(loop.degraded)
    ensures ok <==>
      p == pipeline ||
      (Fitting(cluster.m, old(cluster.links), pipeline.order, config) && IdSet(p.order) <= cluster.links.Keys)
    ensures p != pipeline ==>
      IdSet(p.order) <= old(registry.workers).Keys && p.allocatedSeqs == {} && (ok ==> Distinct(p.order))
    ensures Patient(old(tracker.history), config.maxMissed) ==>
      p == pipeline && parts' == parts && pipeline.allocatedSeqs == old(pipeline.allocatedSeqs) &&
      loop.pending == old(loop.pending) && loop.active == old(loop.active) && loop.degraded == old(loop.degraded) &&
      loop.log == old(loop.log) &&
      Spared(old(cluster.links), old(registry.workers), cluster.links, registry.workers, pipeline.order)
    ensures MissedAtMost(old(tracker.history), tracker.history, 1)
    ensures registry.workers.Keys == old(registry.workers).Keys && HoldNoMore(old(cluster.links), cluster.links, {})
    ensures loop.pending == [] || loop.pending == old(loop.pending)
  {
    hide StateOk, SentOk, Later, SampledRight, RightAnswers, FedOf, ValidLinks, WellFiled, CleanAll, VocabSize, Keeps,
      SameWorkers, NewlyLaid, HoldNoMore, Unclaimed, NothingUnread, HeardOut, Fits, Spared, Patient, MissedAtMost,
      RoundFound, ErrorsFor, Rebalance.Offered;
    SomeLater(loop.pending, loop.active, loop.log, {});
    p, ok, parts' := pipeline, true, parts;
    ghost var was := cluster.links;
    var before := registry.workers;
    var gone := Round(tracker, registry, cluster, config.maxMissed, pipeline.order);
    dead, heard := gone, registry.workers;
    ghost var links := cluster.links;
    SameHold(was, links);
    HoldKeys(was, links);
    if config.model.Some? { FitsOn(cluster.m, was, links, config.model.value); }
    KeepsOn(cluster.m, pipeline.order, pipeline.hiddenSize, pipeline.allocatedSeqs, was, links, parts, loop.Fed());
    calm := registry.workers == before && gone == [];
    if gone != [] {
      ghost var held := Held(loop, pipeline, cluster, parts, v);
      if held { HeldActive(loop, pipeline, cluster, parts, v); }
      p, ok, parts' := HandleDeaths(loop, pipeline, cluster, registry, config, gone, envs);
      HoldOn(was, links, cluster.links, {}, {});
      if p != pipeline && ok { NewlyDistinct(p, cluster, parts'); }
      if held && ok {
        assert loop.active == map[];
        RebuiltHeld(loop, p, cluster, parts', v);
      }
    }
  }

  /** Something of one of the workers is unread, were it a heartbeat ack. */
  ghost predicate SomeSpoke(links: Links, order: seq<NodeId>) {
    exists id :: id in order && id in links && links[id].outbox != []
  }

  lemma {:induction false} SpokeNotHeard(links: Links, order: seq<NodeId>, told: set<NodeId>, gone: set<SeqId>,
                                         free: SeqId -> NodeId -> Env, env: NodeId -> Env)
    ensures SomeSpoke(links, order) ==> !HeardOut(links, order, told, gone, free, env)
  {
    hide Silent;
    if SomeSpoke(links, order) {
      var id :| id in order && id in links && links[id].outbox != [];
      assert !Rebalance.QuietBefore(links[id], env(id));
    }
  }

  /** The order's workers are known, and neither dead nor going to leave. */
  ghost predicate ConnectedOnly(workers: Workers, order: seq<NodeId>) {
    forall id :: id in order ==> id in workers && workers[id].status !in {Dead, Draining}
  }

  /**
   If nothing is active and the loop is not degraded, who leaves is let go and who waits is taken in.
   A new pipeline that is laid out serves iff its workers are heard out.
   */
  method Regroup(loop: DistributedLoop, pipeline: DistributedPipeline, cluster: Cluster, registry: PeerRegistry,
                 config: Config, envs: Envs, ghost parts: seq<LayerAssignment>, ghost v: nat)
    returns (p: DistributedPipeline, ok: bool, ghost parts': seq<LayerAssignment>)
    requires loop.Valid() && cluster.Valid() && registry.Valid() && config.Valid()
    modifies loop`degraded, pipeline`allocatedSeqs, cluster`links, registry
    ensures loop.Valid() && cluster.Valid() && registry.Valid() && (p == pipeline || fresh(p))
    ensures old(loop.Right({})) ==> loop.Right({})
    ensures ok && old(Held(loop, pipeline, cluster, parts, v)) ==> Held(loop, p, cluster, parts', v)
    ensures loop.active != map[] || old(loop.degraded) || Steady(old(registry.workers)) ==>
      ok && p == pipeline && parts' == parts && pipeline.allocatedSeqs == old(pipeline.allocatedSeqs) &&
      cluster.links == old(cluster.links) && registry.workers == old(registry.workers) &&
      loop.degraded == old(loop.degraded)
    ensures loop.active == map[] && !old(loop.degraded) && !Steady(old(registry.workers)) ==>
      (ok <==>
         loop.degraded ||
         (p != pipeline && Fitting(cluster.m, old(cluster.links), pipeline.order, config) &&
          IdSet(p.order) <= cluster.links.Keys)) &&
      (loop.degraded <==> config.model.Some? && p == pipeline)
    ensures Covered(cluster.m, old(cluster.links), old(registry.workers), pipeline.order, config) ==> ok
    ensures p != pipeline ==> ConnectedOnly(old(registry.workers), p.order)
    ensures p != pipeline && ok ==>
      (NothingUnread(cluster.links, p.order) <==>
         HeardOut(old(cluster.links), p.order, IdSet(pipeline.order) * Rebalance.ReadyIds(old(registry.workers)),
                  old(pipeline.allocatedSeqs), envs.free, envs.told))
    ensures p != pipeline && ok && SomeSpoke(old(cluster.links), p.order) ==> !NothingUnread(cluster.links, p.order)
    ensures registry.workers.Keys == old(registry.workers).Keys && HoldNoMore(old(cluster.links), cluster.links, {})
  {
    hide StateOk, SentOk, FedOf, SampledRight, RightAnswers, ValidLinks, Keeps, VocabSize, WellFiled, NewlyLaid,
      Emptied, HeardOut, HoldNoMore, NothingUnread, Fits, SomeSpoke;
    p, ok, parts' := pipeline, true, parts;
    HoldSame(cluster.links, {});
    if loop.active == map[] && !loop.degraded {
      var changed;
      ghost var held, next := Held(loop, pipeline, cluster, parts, v), parts;
      p, changed, ok, next := HandleMembership(loop, pipeline, cluster, registry, config, envs);
      HoldKeys(old(cluster.links), cluster.links);
      SpokeNotHeard(old(cluster.links), p.order, IdSet(pipeline.order) * Rebalance.ReadyIds(old(registry.workers)),
                    old(pipeline.allocatedSeqs), envs.free, envs.told);
      if changed {
        parts' := next;
        if held && ok { RebuiltHeld(loop, p, cluster, parts', v); }
      }
    }
  }

  function Rounds(t: Tick): nat { if t.beats.Some? then 1 else 0 }

  /** The free blocks of the workers that answer the heartbeat. */
  function Answers(t: Tick): map<NodeId, nat> { if t.beats.Some? then t.beats.value.answers else map[] }

  /** Whatever workers die, leave or join, a new pipeline will be laid out. */
  ghost predicate Covered(m: Model, links: Links, workers: Workers, order: seq<NodeId>, config: Config) {
    Fitting(m, links, order, config) && workers.Keys <= links.Keys
  }

  /**
   The pipeline is not concerned by what the workers do: none of its own announces its leave, nobody
   can count as dead in the heartbeat, if there is one, and nobody waits to leave or to join.
   */
  ghost predicate Unconcerned(t: Tick, degraded: bool, links: Links, workers: Workers,
                              history: seq<Heartbeats.Event>, order: seq<NodeId>, maxMissed: nat) {
    t.announced !! IdSet(order) && (t.beats.Some? ==> Patient(history, maxMissed) && Enlisted(workers, order)) &&
    (degraded || (NothingUnread(links, order) && Steady(workers)))
  }

  /** What is left of that afterwards. */
  ghost predicate Settling(degraded: bool, links: Links, was: Workers, now: Workers, order: seq<NodeId>) {
    (Enlisted(was, order) ==> Enlisted(now, order)) && (degraded || (NothingUnread(links, order) && Steady(now)))
  }

  lemma {:induction false} UnconcernedFacts(t: Tick, degraded: bool, was: Links, said: Links, workers: Workers,
                                            history: seq<Heartbeats.Event>, order: seq<NodeId>, maxMissed: nat)
    requires said.Keys == was.Keys &&
             forall id :: id in said ==> said[id].outbox == was[id].outbox + Intent(id in t.announced)
    ensures Unconcerned(t, degraded, was, workers, history, order, maxMissed) ==>
      (degraded || NothingUnread(said, order)) && (t.beats.Some? ==> Patient(history, maxMissed))
  {
    hide Patient, AllAcks;
    if Unconcerned(t, degraded, was, workers, history, order, maxMissed) && !degraded {
      forall id | id in order
        ensures id in said && AllAcks(said[id].outbox)
      {
        assert id in IdSet(order) && was[id].outbox + [] == was[id].outbox;
      }
    }
  }

  lemma {:induction false} SettlingFacts(t: Tick, degraded: bool, was: Links, said: Links, workers: Workers, mid: Links,
                                         workers': Workers, history: seq<Heartbeats.Event>, order: seq<NodeId>,
                                         maxMissed: nat)
    requires t.beats.None? ==> mid == said && workers' == workers
    ensures Unconcerned(t, degraded, was, workers, history, order, maxMissed) &&
            (degraded || NothingUnread(said, order)) && Spared(said, workers, mid, workers', order) ==>
      Settling(degraded, mid, workers, workers', order)
  {
    hide Patient, NothingUnread, Enlisted, Steady;
  }

  lemma {:induction false} SettlingStands(degraded: bool, links: Links, was: Workers, now: Workers,
                                          order: seq<NodeId>)
    ensures Settling(degraded, links, was, now, order) ==>
      (degraded || (NothingUnread(links, order) && Steady(now))) && (Enlisted(was, order) ==> Enlisted(now, order))
  {
  }

  lemma {:induction false} CoveredFacts(m: Model, was: Links, said: Links, workers: Workers, order: seq<NodeId>,
                                        config: Config)
    requires HoldNoMore(was, said, {})
    ensures Covered(m, was, workers, order, config) ==> Fitting(m, said, order, config) && workers.Keys <= said.Keys
  {
    hide Fits;
    if config.model.Some? { FitsOn(m, was, said, config.model.value); }
  }

  lemma {:induction false} CoveredAgain(m: Model, was: Links, now: Links, workers: Workers, workers': Workers,
                                        order: seq<NodeId>, order': seq<NodeId>, config: Config)
    requires HoldNoMore(was, now, {}) && workers'.Keys == workers.Keys
    ensures Covered(m, was, workers, order, config) && (order' == order || Distinct(order')) ==>
      Covered(m, now, workers', order', config)
  {
    hide Fits;
    if config.model.Some? { FitsOn(m, was, now, config.model.value); }
  }

  lemma {:induction false} NobodyAnswered(workers: Workers, links: Links)
    ensures AnswersUnread(workers, links, workers, map[])
  {
  }

  /** Workers announce their leave, and the heartbeat is seen to, if there is one. */
  method Hear(loop: DistributedLoop, pipeline: DistributedPipeline, cluster: Cluster, registry: PeerRegistry,
              tracker: Heartbeats.HeartbeatTracker, config: Config, t: Tick, ghost parts: seq<LayerAssignment>,
              ghost v: nat)
    returns (p: DistributedPipeline, ok: bool, calm: bool, ghost parts': seq<LayerAssignment>)
    requires loop.Valid() && cluster.Valid() && registry.Valid() && tracker.Valid() && config.Valid()
    modifies loop`pending, loop`active, loop`log, loop`degraded, pipeline`allocatedSeqs, cluster`links, registry,
      tracker
    ensures loop.Valid() && cluster.Valid() && registry.Valid() && tracker.Valid() && Later(old(loop.log), loop.log) &&
            (p == pipeline || fresh(p)) && loop.log.received == old(loop.log).received
    ensures old(loop.Right({})) ==> loop.Right({})
    ensures ok && old(Held(loop, pipeline, cluster, parts, v)) ==> Held(loop, p, cluster, parts', v)
    ensures t.beats.None? ==> calm
    ensures calm ==>
      p == pipeline && registry.workers == old(registry.workers) && loop.pending == old(loop.pending) &&
      loop.active == old(loop.active) && loop.degraded == old(loop.degraded)
    ensures Covered(cluster.m, old(cluster.links), old(registry.workers), pipeline.order, config) ==>
      ok && Covered(cluster.m, cluster.links, registry.workers, p.order, config)
    ensures Unconcerned(t, old(loop.degraded), old(cluster.links), old(registry.workers), old(tracker.history),
                        pipeline.order, config.maxMissed) ==>
      ok && p == pipeline && parts' == parts && pipeline.allocatedSeqs == old(pipeline.allocatedSeqs) &&
      loop.pending == old(loop.pending) && loop.active == old(loop.active) && loop.degraded == old(loop.degraded) &&
      loop.log == old(loop.log) &&
      Settling(loop.degraded, cluster.links, old(registry.workers), registry.workers, pipeline.order)
    ensures Patient(old(tracker.history), config.maxMissed) ==>
      p == pipeline && AnswersUnread(old(registry.workers), cluster.links, registry.workers, Answers(t))
    ensures MissedAtMost(old(tracker.history), tracker.history, Rounds(t))
    ensures registry.workers.Keys == old(registry.workers).Keys && HoldNoMore(old(cluster.links), cluster.links, {})
    ensures loop.pending == [] || loop.pending == old(loop.pending)
  {
    hide StateOk, SentOk, Later, SampledRight, RightAnswers, FedOf, ValidLinks, Keeps, VocabSize, WellFiled,
      SameWorkers, Steady, HoldNoMore, NothingUnread, Spared, Fitting, MissedAtMost, Unconcerned, Covered, Settling,
      Patient, AnswersUnread, RoundFound;
    SomeLater(loop.pending, loop.active, loop.log, {});
    p, ok, calm, parts' := pipeline, true, true, parts;
    ghost var was, workers, history := cluster.links, registry.workers, tracker.history;
    Announce(cluster, t.announced);
    SameHold(was, cluster.links);
    ghost var said := cluster.links;
    KeepsOn(cluster.m, p.order, p.hiddenSize, p.allocatedSeqs, was, said, parts, loop.Fed());
    NothingMissed(history, 0);
    NothingHeard(said, workers, p.order);
    UnconcernedFacts(t, loop.degraded, was, said, workers, history, p.order, config.maxMissed);
    CoveredFacts(cluster.m, was, said, workers, p.order, config);
    NobodyAnswered(workers, said);
    if t.beats.Some? {
      ghost var dead, heard;
      p, ok, calm, parts', dead, heard := Heartbeat(loop, p, cluster, registry, tracker, config, t.beats.value, t.envs,
                                                    parts, v);
      HoldOn(was, said, cluster.links, {}, {});
    }
    SettlingFacts(t, loop.degraded, was, said, workers, cluster.links, registry.workers, history, pipeline.order,
                  config.maxMissed);
    CoveredAgain(cluster.m, was, cluster.links, workers, registry.workers, pipeline.order, p.order, config);
  }

  /** A worker of the new pipeline that has answered the heartbeat of the same iteration is not heard out. */
  lemma {:induction false} AnsweredFirst(links: Links, ids: set<NodeId>, nonce: nat, answers: map<NodeId, nat>,
                                         order: seq<NodeId>, id: NodeId, told: set<NodeId>, gone: set<SeqId>,
                                         free: SeqId -> NodeId -> Env, env: NodeId -> Env)
    requires id in order && id in links && id in ids && id in answers
    ensures !HeardOut(Heartbeats.Beaten(links, ids, nonce, answers), order, told, gone, free, env)
  {
    hide Silent;
    var now := Heartbeats.Beaten(links, ids, nonce, answers);
    assert id in now && now[id].outbox != [];
    assert !Rebalance.QuietBefore(now[id], env(id));
  }

  /** A worker of the new pipeline served before and answered the heartbeat. */
  ghost predicate SomeAnswered(workers: Workers, links: Links, order: seq<NodeId>, answers: map<NodeId, nat>) {
    exists id :: id in order && id in answers && id in workers && workers[id].Serving() && id in links
  }

  lemma {:induction false} AnsweredSpoke(was: Workers, links: Links, heard: Links, workers: Workers,
                                         order: seq<NodeId>, answers: map<NodeId, nat>)
    requires heard.Keys == links.Keys
    ensures SomeAnswered(was, links, order, answers) && ConnectedOnly(workers, order) &&
            AnswersUnread(was, heard, workers, answers) ==>
      SomeSpoke(heard, order)
  {
  }

  lemma {:induction false} LeaverHeard(a: Entry, b: Entry, wa: W.Worker, wb: W.Worker, pending: Option<nat>)
    requires a.Serving() && b.Serving()
    ensures var links := map["a" := Link(wa, [W.LeaveIntent]), "b" := Link(wb, [])];
            var workers := map["a" := a, "b" := b];
            Heartbeats.HeardAs(a, Heartbeats.Found(links, workers, "a"), pending) == a.(status := Draining) &&
            Heartbeats.HeardAs(b, Heartbeats.Found(links, workers, "b"), pending) == b
  {
  }

  lemma {:induction false} NothingSaid(w: W.Worker, free: SeqId -> NodeId -> Env, env: Env)
    requires env.acksBefore == [] && !env.leaves
    ensures Rebalance.QuietThrough(Link(w, []), true, {}, free, "b", env)
  {
  }

  /**
   Two workers, of which "a" has announced its leave.  The round lets it drain.  If "b" answers the
   heartbeat that is then sent, the ack is read for its answer when it is reconfigured, and the new
   pipeline does not serve; without that heartbeat it does.
   */
  lemma {:induction false} LeaveAndAnswer(a: Entry, b: Entry, wa: W.Worker, wb: W.Worker, pending: Option<nat>,
                                          nonce: nat, freeBlocks: nat, free: SeqId -> NodeId -> Env,
                                          env: NodeId -> Env)
    requires a.Serving() && b.Serving() && env("b").acksBefore == [] && !env("b").leaves
    ensures var links := map["a" := Link(wa, [W.LeaveIntent]), "b" := Link(wb, [])];
            var workers := map["a" := a, "b" := b];
            var polled := Heartbeats.PolledLinks(links, ["a", "b"]);
            var sent := Heartbeats.Beaten(polled, {"b"}, nonce, map["b" := freeBlocks]);
            Heartbeats.HeardAs(a, Heartbeats.Found(links, workers, "a"), pending) == a.(status := Draining) &&
            Heartbeats.HeardAs(b, Heartbeats.Found(links, workers, "b"), pending) == b &&
            HeardOut(polled, ["b"], {"b"}, {}, free, env) && !HeardOut(sent, ["b"], {"b"}, {}, free, env) &&
            "b" in sent &&
            Strip(Rebalance.ReadyStream(sent["b"].outbox, [], false, env("b").acksAfter)[1..]) == [W.WorkerReady]
  {
    hide Silent, Heartbeats.HeardAs, Heartbeats.Found, Rebalance.QuietThrough, Strip;
    var links := map["a" := Link(wa, [W.LeaveIntent]), "b" := Link(wb, [])];
    var polled := Heartbeats.PolledLinks(links, ["a", "b"]);
    var sent := Heartbeats.Beaten(polled, {"b"}, nonce, map["b" := freeBlocks]);
    var beat := W.Beat(nonce, freeBlocks);
    LeaverHeard(a, b, wa, wb, pending);
    assert ["a", "b"][0] == "a" && ["a", "b"][1] == "b" && ["b"][0] == "b";
    assert polled["b"] == Link(wb, []);
    NothingSaid(wb, free, env("b"));
    AnsweredFirst(polled, {"b"}, nonce, map["b" := freeBlocks], ["b"], "b", {"b"}, {}, free, env);
    Rebalance.AckReadInstead(beat, env("b").acksAfter);
    assert sent["b"].outbox == [W.HeartbeatAck(beat)] == Acks([beat]);
    assert Rebalance.ReadyStream(sent["b"].outbox, [], false, env("b").acksAfter)
        == Rebalance.ReadyStream([], [beat], false, env("b").acksAfter);
  }

  /** Workers that leave, live, die and join. */
  method SeeWorkers(loop: DistributedLoop, pipeline: DistributedPipeline, cluster: Cluster, registry: PeerRegistry,
                    tracker: Heartbeats.HeartbeatTracker, config: Config, t: Tick, ghost parts: seq<LayerAssignment>,
                    ghost v: nat)
    returns (p: DistributedPipeline, ok: bool, calm: bool, ghost parts': seq<LayerAssignment>)
    requires loop.Valid() && cluster.Valid() && registry.Valid() && tracker.Valid() && config.Valid()
    modifies loop`pending, loop`active, loop`log, loop`degraded, pipeline`allocatedSeqs, cluster`links, registry,
      tracker
    ensures loop.Valid() && cluster.Valid() && registry.Valid() && tracker.Valid() && Later(old(loop.log), loop.log) &&
            (p == pipeline || fresh(p)) && loop.log.received == old(loop.log).received
    ensures old(loop.Right({})) ==> loop.Right({})
    ensures ok && old(Held(loop, pipeline, cluster, parts, v)) ==> Held(loop, p, cluster, parts', v)
    ensures t.beats.None? ==> calm
    ensures calm && Steady(old(registry.workers)) ==>
      registry.workers == old(registry.workers) && loop.degraded == old(loop.degraded) &&
      loop.pending == old(loop.pending) && loop.active == old(loop.active)
    ensures Covered(cluster.m, old(cluster.links), old(registry.workers), pipeline.order, config) ==> ok
    ensures Unconcerned(t, old(loop.degraded), old(cluster.links), old(registry.workers), old(tracker.history),
                        pipeline.order, config.maxMissed) ==>
      ok && p == pipeline && parts' == parts && pipeline.allocatedSeqs == old(pipeline.allocatedSeqs) &&
      loop.pending == old(loop.pending) && loop.active == old(loop.active) && loop.degraded == old(loop.degraded) &&
      loop.log == old(loop.log) &&
      Settling(loop.degraded, cluster.links, old(registry.workers), registry.workers, pipeline.order)
    ensures Patient(old(tracker.history), config.maxMissed) && p != pipeline && ok &&
            SomeAnswered(old(registry.workers), old(cluster.links), p.order, Answers(t)) ==>
      !NothingUnread(cluster.links, p.order)
    ensures MissedAtMost(old(tracker.history), tracker.history, Rounds(t))
    ensures HoldNoMore(old(cluster.links), cluster.links, {})
    ensures old(Unclaimed(cluster.links, loop.pending, loop.log)) ==> Unclaimed(cluster.links, loop.pending, loop.log)
  {
    hide StateOk, SentOk, Later, SampledRight, RightAnswers, FedOf, ValidLinks, Keeps, VocabSize, WellFiled, Steady,
      HoldNoMore, NothingUnread, MissedAtMost, HeardOut, Unconcerned, Settling, Held, Covered, Fitting, IdSet, Rounds,
      Heartbeats.MissedSince, Heartbeats.CountIn, DistributedLoop.Fed, AnswersUnread, SomeAnswered, ConnectedOnly,
      Patient, SomeSpoke, DistributedLoop.Right, Answers, Unclaimed, IsPending;
    var q, heard, good;
    ghost var laid: seq<LayerAssignment>;
    q, heard, calm, laid := Hear(loop, pipeline, cluster, registry, tracker, config, t, parts, v);
    ghost var links, workers := cluster.links, registry.workers;
    SettlingStands(loop.degraded, links, old(registry.workers), workers, q.order);
    HoldKeys(old(cluster.links), links);
    p, good, parts' := Regroup(loop, q, cluster, registry, config, t.envs, laid, v);
    AnsweredSpoke(old(registry.workers), old(cluster.links), links, workers, p.order, Answers(t));
    HoldOn(old(cluster.links), links, cluster.links, {}, {});
    NoneWaits();
    UnclaimedOn(old(cluster.links), cluster.links, {}, old(loop.pending), old(loop.log), loop.pending, loop.log);
    HoldKeys(links, cluster.links);
    ok := heard && good;
  }

  /** The pipeline has no sequence booked that waits. */
  ghost predicate Unbooked(known: set<SeqId>, pending: seq<Request>, log: Log) {
    forall s :: s in known ==> s in log.received && !IsPending(pending, s)
  }

  lemma {:induction false} UnbookedOn(known: set<SeqId>, known': set<SeqId>, more: set<SeqId>, pending: seq<Request>,
                                      log: Log, pending': seq<Request>, log': Log)
    requires known' <= known + more && log.received.Keys <= log'.received.Keys
    requires forall s :: s in log.received && IsPending(pending', s) ==> IsPending(pending, s)
    requires forall s :: s in more ==> s in log'.received && !IsPending(pending', s)
    ensures Unbooked(known, pending, log) ==> Unbooked(known', pending', log')
  {
    hide IsPending;
  }

  /** Everything has gone well: what was generated and answered is right, and nothing has failed that need not. */
  ghost predicate Unfailed(loop: DistributedLoop, pipeline: DistributedPipeline)
    reads loop, pipeline
  {
    loop.Right({}) && Blameless(loop.model, loop.log) && Unbooked(pipeline.allocatedSeqs, loop.pending, loop.log)
  }

  /** Every device computes and has room for one more sequence. */
  ghost predicate Able(order: seq<NodeId>, envs: Envs) {
    AllHealthy(order, envs.pass) &&
    forall id :: id in order ==> envs.alloc(id).contiguousOk && envs.alloc(id).pagedOk
  }

  /** Nobody announces its leave while it handles a message. */
  ghost predicate NobodyLeaves(order: seq<NodeId>, envs: Envs) {
    AllStay(order, envs.alloc) && AllStay(order, envs.pass) && forall s :: AllStay(order, envs.free(s))
  }

  /** Every worker has room for one more sequence, or there is only one worker. */
  predicate HasRoom(order: seq<NodeId>, envs: Envs) {
    |order| == 1 || forall id :: id in order ==> envs.alloc(id).contiguousOk && envs.alloc(id).pagedOk
  }

  /**
   A tick without a pipeline from elsewhere in which no worker of the pipeline announces its leave
   and every allocation can be made.  Passes may fail.
   */
  ghost predicate Peaceful(t: Tick, order: seq<NodeId>) {
    t.swap.None? && !t.wake.Replaced? && t.announced !! IdSet(order) && NobodyLeaves(order, t.envs) &&
    HasRoom(order, t.envs)
  }

  /** A peaceful tick in which every device computes and has room. */
  ghost predicate Kindly(t: Tick, order: seq<NodeId>) {
    Peaceful(t, order) && Able(order, t.envs)
  }

  /** Nothing is unread, no worker holds what waits, and nobody waits to leave or to join. */
  ghost predicate Undisturbed(loop: DistributedLoop, pipeline: DistributedPipeline, cluster: Cluster,
                              registry: PeerRegistry, parts: seq<LayerAssignment>, v: nat)
    reads loop, pipeline, cluster, registry
  {
    Sane(loop, pipeline, cluster, parts, v) && Unclaimed(cluster.links, loop.pending, loop.log) &&
    (loop.degraded || Steady(registry.workers))
  }

  /** A loop that starts over a pipeline that serves from scratch, with workers that hold nothing, is undisturbed. */
  lemma {:induction false} StartsUndisturbed(loop: DistributedLoop, pipeline: DistributedPipeline, cluster: Cluster,
                                             registry: PeerRegistry, parts: seq<LayerAssignment>, v: nat)
    requires loop.active == map[] && loop.model == cluster.m && VocabSize(cluster.m, v) &&
             loop.limits.maxPrefillTokens > 0
    requires pipeline.Serving(cluster, parts, true, map[]) && Steady(registry.workers)
    requires forall id :: id in cluster.links ==> cluster.links[id].worker.handles == map[]
    ensures Undisturbed(loop, pipeline, cluster, registry, parts, v)
    ensures loop.log.received == map[] && loop.log.events == map[] ==>
      loop.Right({}) && (pipeline.allocatedSeqs == {} ==> Unfailed(loop, pipeline))
  {
    hide DistributedPipeline.Serving, VocabSize, Steady, Keeps, NothingUnread, AnswerRight;
    assert loop.Fed() == map[];
    KeepsServes(pipeline, cluster, parts, map[]);
  }

  /** There is no heartbeat, or nobody can count as dead in it and only the pipeline's workers are part of it. */
  ghost predicate Untimed(t: Tick, history: seq<Heartbeats.Event>, workers: Workers, order: seq<NodeId>,
                          maxMissed: nat) {
    t.beats.None? || (Patient(history, maxMissed) && Enlisted(workers, order))
  }

  lemma {:induction false} PeacefulUnconcerned(t: Tick, loop: DistributedLoop, pipeline: DistributedPipeline,
                                               cluster: Cluster, registry: PeerRegistry,
                                               history: seq<Heartbeats.Event>, parts: seq<LayerAssignment>, v: nat,
                                               maxMissed: nat)
    ensures Peaceful(t, pipeline.order) && Untimed(t, history, registry.workers, pipeline.order, maxMissed) &&
            Undisturbed(loop, pipeline, cluster, registry, parts, v) ==>
      t.swap.None? &&
      Unconcerned(t, loop.degraded, cluster.links, registry.workers, history, pipeline.order, maxMissed)
  {
    hide NobodyLeaves, HasRoom, Patient, Enlisted, Steady, NothingUnread, Held, Unclaimed;
  }

  /** Of the requests that come in none had been received. */
  lemma {:induction false} NewWait(pending: seq<Request>, log: Log, rs: seq<Request>)
    requires IdsIn(rs) !! log.received.Keys
    ensures forall s :: s in log.received && IsPending(pending + rs, s) ==> IsPending(pending, s)
  {
    assert forall i :: 0 <= i < |rs| ==> rs[i].seqId in IdsIn(rs);
    forall s | s in log.received && IsPending(pending + rs, s)
      ensures IsPending(pending, s)
    {
      var i :| 0 <= i < |pending + rs| && (pending + rs)[i].seqId == s;
    }
  }

  lemma {:induction false} NoneWaits()
    ensures forall s :: !IsPending([], s)
  {
  }

  /**
   The first half of an iteration: requests and workers.  `ok` says that no other pipeline came in,
   that a new one, if there is one, was laid out, and that nothing is left unread on its links.
   */
  method Observe(loop: DistributedLoop, pipeline: DistributedPipeline, cluster: Cluster, registry: PeerRegistry,
                 tracker: Heartbeats.HeartbeatTracker, config: Config, t: Tick, ghost parts: seq<LayerAssignment>,
                 ghost v: nat)
    returns (p: DistributedPipeline, stop: bool, ok: bool, calm: bool, ghost parts': seq<LayerAssignment>)
    requires loop.Valid() && cluster.Valid() && registry.Valid() && tracker.Valid() && config.Valid()
    requires DistinctRequests(t.arrivals) && IdsIn(t.arrivals) !! loop.log.received.Keys
    modifies loop`pending, loop`active, loop`log, loop`sent, loop`degraded, pipeline`allocatedSeqs, cluster`links,
             registry, tracker
    ensures loop.Valid() && cluster.Valid() && registry.Valid() && tracker.Valid() && Later(old(loop.log), loop.log) &&
            (p == pipeline || fresh(p))
    ensures loop.log.received.Keys == old(loop.log).received.Keys + IdsIn(t.arrivals)
    ensures stop ==> loop.pending == [] && loop.active == map[]
    ensures old(loop.Right({})) ==> loop.Right({})
    ensures ok && old(Sane(loop, pipeline, cluster, parts, v)) ==> Sane(loop, p, cluster, parts', v)
    ensures t.beats.None? ==> calm
    ensures Quiet(t) && calm && Steady(old(registry.workers)) ==>
      registry.workers == old(registry.workers) && loop.degraded == old(loop.degraded) &&
      loop.pending == old(loop.pending) && loop.active == old(loop.active) &&
      (stop <==> loop.pending == [] && loop.active == map[])
    ensures t.swap.None? && Covered(cluster.m, old(cluster.links), old(registry.workers), pipeline.order, config) &&
            old(Sane(loop, pipeline, cluster, parts, v)) ==>
      (ok <==> Sane(loop, p, cluster, parts', v))
    ensures Peaceful(t, pipeline.order) && Untimed(t, old(tracker.history), old(registry.workers), pipeline.order,
                                                   config.maxMissed) &&
            old(Undisturbed(loop, pipeline, cluster, registry, parts, v)) ==>
      ok && p == pipeline && parts' == parts && Undisturbed(loop, pipeline, cluster, registry, parts, v) &&
      (Enlisted(old(registry.workers), pipeline.order) ==> Enlisted(registry.workers, pipeline.order)) &&
      loop.degraded == old(loop.degraded) && (old(Unfailed(loop, pipeline)) ==> Unfailed(loop, pipeline))
    ensures MissedAtMost(old(tracker.history), tracker.history, Rounds(t))
    ensures old(Unclaimed(cluster.links, loop.pending, loop.log)) ==>
      Unclaimed(cluster.links, loop.pending, loop.log)
  {
    hide StateOk, SentOk, Later, SampledRight, RightAnswers, FedOf, ValidLinks, Keeps, VocabSize, WellFiled,
      NothingUnread, Steady, Unclaimed, HoldNoMore, Covered, Unconcerned, Settling, MissedAtMost, IsPending,
      DistinctRequests, IdsIn, Heartbeats.MissedSince, Heartbeats.CountIn, Held, DistributedLoop.Fed, Rounds, Peaceful,
      DistributedLoop.Right, Untimed, Enlisted, Unbooked, Blameless;
    stop, calm, parts' := false, true, parts;
    NothingMissed(tracker.history, Rounds(t));
    PeacefulUnconcerned(t, loop, pipeline, cluster, registry, tracker.history, parts, v, config.maxMissed);
    var q;
    q, ok := TakeIn(loop, pipeline, cluster, t, parts, v);
    p := q;
    if t.closed && loop.pending == [] && loop.active == map[] {
      stop := true;
      return;
    }
    ghost var mid := loop.log;
    var good;
    p, good, calm, parts' := SeeWorkers(loop, q, cluster, registry, tracker, config, t, parts, v);
    SettlingStands(loop.degraded, cluster.links, old(registry.workers), registry.workers, pipeline.order);
    LaterTransitive(old(loop.log), mid, loop.log);
    ok := ok && good && (loop.degraded || NothingUnread(cluster.links, p.order));
  }

  /** A pipeline that was built elsewhere comes in, and the channel is drained. */
  method TakeIn(loop: DistributedLoop, pipeline: DistributedPipeline, cluster: Cluster, t: Tick,
                ghost parts: seq<LayerAssignment>, ghost v: nat)
    returns (p: DistributedPipeline, ok: bool)
    requires loop.Valid() && DistinctRequests(t.arrivals) && IdsIn(t.arrivals) !! loop.log.received.Keys
    modifies loop`pending, loop`log, loop`sent, loop`degraded
    ensures loop.Valid() && Later(old(loop.log), loop.log) && (p == pipeline || fresh(p))
    ensures loop.log.received.Keys == old(loop.log).received.Keys + IdsIn(t.arrivals)
    ensures loop.pending == old(loop.pending) + t.arrivals && (old(loop.Right({})) ==> loop.Right({}))
    ensures ok <==> p == pipeline
    ensures t.swap.None? ==> ok && loop.degraded == old(loop.degraded)
    ensures t.swap.Some? ==>
      (p != pipeline <==> t.swap.value != [] && Contiguous(t.swap.value, 0)) &&
      (p != pipeline ==> p.order == NodeIds(t.swap.value) && p.allocatedSeqs == {} && !loop.degraded)
    ensures ok ==>
      (Held(loop, pipeline, cluster, parts, v) <==> old(Held(loop, pipeline, cluster, parts, v))) &&
      loop.degraded == old(loop.degraded)
    ensures old(Unclaimed(cluster.links, loop.pending, loop.log)) ==> Unclaimed(cluster.links, loop.pending, loop.log)
    ensures old(Unfailed(loop, pipeline)) ==> Unfailed(loop, pipeline)
  {
    hide StateOk, SentOk, Later, SampledRight, RightAnswers, FedOf, Keeps, VocabSize, Unclaimed, HoldNoMore, IsPending,
      DistinctRequests, IdsIn, Unbooked, Blameless;
    ghost var waiting, log := loop.pending, loop.log;
    p, ok := pipeline, true;
    if t.swap.Some? {
      p := Replace(loop, pipeline, t.swap.value);
      ok := p == pipeline;
    }
    NewWait(loop.pending, loop.log, t.arrivals);
    ReceiveAll(loop, t.arrivals);
    UnbookedOn(pipeline.allocatedSeqs, pipeline.allocatedSeqs, {}, waiting, log, loop.pending, loop.log);
    HoldSame(cluster.links, {});
    UnclaimedOn(cluster.links, cluster.links, {}, waiting, log, loop.pending, loop.log);
  }

  lemma {:induction false} NothingBusy(limits: Limits)
    ensures !Busy(map[], limits)
  {
  }

  /** Then whatever the first that waits is answered, nothing is left unread. */
  lemma {:induction false} RoomIsSure(links: Links, order: seq<NodeId>, pending: seq<Request>, log: Log, known: bool,
                                      envs: Envs)
    requires Unclaimed(links, pending, log) && pending != [] && IdSet(order) <= links.Keys
    requires AllStay(order, envs.alloc) && HasRoom(order, envs)
    ensures Sure(CleanAll(links), order, known, pending[0].seqId, envs.alloc)
  {
    var s := pending[0].seqId;
    assert IsPending(pending, s);
    if |order| != 1 {
      forall id | id in IdSet(order)
        ensures id in Acking(CleanAll(links), s, envs.alloc)
      {
        assert id in links && s !in links[id].worker.handles;
        assert CleanAll(links)[id].worker == links[id].worker;
      }
    }
  }

  /** Workers that have room take the first that waits. */
  lemma {:induction false} RoomIsTaken(links: Links, order: seq<NodeId>, known: set<SeqId>, pending: seq<Request>,
                                       log: Log, envs: Envs)
    requires Unclaimed(links, pending, log) && Unbooked(known, pending, log) && pending != [] &&
             IdSet(order) <= links.Keys
    requires AllStay(order, envs.alloc) && Able(order, envs)
    ensures pending[0].seqId !in known && IdSet(order) <= Acking(CleanAll(links), pending[0].seqId, envs.alloc)
  {
    hide AllHealthy;
    var s := pending[0].seqId;
    assert IsPending(pending, s);
    forall id | id in IdSet(order)
      ensures id in Acking(CleanAll(links), s, envs.alloc)
    {
      assert id in links && s !in links[id].worker.handles;
      assert CleanAll(links)[id].worker == links[id].worker;
    }
  }

  lemma {:induction false} UnmetAll(envs: seq<Env>)
    requires forall i :: 0 <= i < |envs| ==> !envs[i].leaves
    ensures Unmet(envs)
  {
    if envs != [] { UnmetAll(envs[1..]); }
  }

  lemma {:induction false} NobodyMet(order: seq<NodeId>, ready: set<NodeId>, envs: Envs)
    requires NobodyLeaves(order, envs)
    ensures Unmet(EnvsOf(order, envs.pass))
    ensures forall s :: AllStay(order, envs.free(s)) && StayIn(order, ready, envs.free(s))
  {
    assert forall i :: 0 <= i < |order| ==> order[i] in order;
    UnmetAll(EnvsOf(order, envs.pass));
  }

  /** The first waiting request is admitted if the workers have more free blocks than the reserve. */
  method AdmitOne(loop: DistributedLoop, pipeline: DistributedPipeline, cluster: Cluster, registry: PeerRegistry,
                  config: Config, envs: Envs, ghost parts: seq<LayerAssignment>, ghost v: nat) returns (ok: bool)
    requires loop.Valid() && cluster.Valid()
    modifies loop`pending, loop`active, loop`log, pipeline`allocatedSeqs, cluster`links
    ensures loop.Valid() && cluster.Valid() && Later(old(loop.log), loop.log) &&
            loop.log.received == old(loop.log).received
    ensures loop.pending ==
      if old(loop.pending) != [] && Admissible(registry.workers, config.minFreeBlocksReserve) then
        old(loop.pending)[1..]
      else old(loop.pending)
    ensures if loop.pending == old(loop.pending) then loop.active == old(loop.active)
            else Load(loop.pending, loop.active) < old(Load(loop.pending, loop.active))
    ensures forall s :: s in old(loop.active) ==> s in loop.active && loop.active[s] == old(loop.active)[s]
    ensures old(Intact(loop, pipeline, cluster, parts, v)) ==> (ok <==> Intact(loop, pipeline, cluster, parts, v))
    ensures old(Intact(loop, pipeline, cluster, parts, v)) &&
            (old(loop.pending) != [] ==>
               var s := old(loop.pending)[0].seqId;
               Sure(CleanAll(old(cluster.links)), pipeline.order, s in old(pipeline.allocatedSeqs), s, envs.alloc)) ==>
      ok
    ensures old(Intact(loop, pipeline, cluster, parts, v)) &&
            old(Unclaimed(cluster.links, loop.pending, loop.log)) && NobodyLeaves(pipeline.order, envs) &&
            HasRoom(pipeline.order, envs) ==>
      ok
    ensures old(loop.Right({})) ==> loop.Right({})
    ensures old(Intact(loop, pipeline, cluster, parts, v)) && old(Unfailed(loop, pipeline)) &&
            old(Unclaimed(cluster.links, loop.pending, loop.log)) && NobodyLeaves(pipeline.order, envs) &&
            Able(pipeline.order, envs) ==>
      ok && Unfailed(loop, pipeline)
    ensures old(Unclaimed(cluster.links, loop.pending, loop.log)) ==> Unclaimed(cluster.links, loop.pending, loop.log)
  {
    hide StateOk, SentOk, Later, SampledRight, RightAnswers, FedOf, ValidLinks, DistributedPipeline.Serving, Load,
      VocabSize, Busy, Schedulable, Sure, CleanAll, Unclaimed, NobodyLeaves, HasRoom, AllStay, Acking, HoldNoMore,
      Intact, Blameless, Unbooked, IsPending, ErrorsFor, Able;
    SomeLater(loop.pending, loop.active, loop.log, {});
    ok := true;
    var free := registry.MinFreeBlocks();
    if loop.pending == [] || (free <= config.minFreeBlocksReserve && free != 0) { return; }
    ghost var waiting, log, known := loop.pending, loop.log, pipeline.allocatedSeqs;
    AdmitClaims(waiting, loop.active, log);
    if Intact(loop, pipeline, cluster, parts, v) && Unclaimed(cluster.links, waiting, log) &&
       NobodyLeaves(pipeline.order, envs) {
      IntactReach(loop, pipeline, cluster, parts, v);
      NobodyAllocating(pipeline.order, envs);
      if HasRoom(pipeline.order, envs) {
        RoomIsSure(cluster.links, pipeline.order, waiting, log, waiting[0].seqId in known, envs);
      }
      if Unbooked(known, waiting, log) && Able(pipeline.order, envs) {
        RoomIsTaken(cluster.links, pipeline.order, known, waiting, log, envs);
        TakenIsSure(cluster.links, pipeline.order, known, waiting[0].seqId, envs);
      }
    }
    var _, done := AdmitFirst(loop, pipeline, cluster, envs, parts, v);
    ok := done;
    UnbookedOn(known, pipeline.allocatedSeqs, {waiting[0].seqId}, waiting, log, loop.pending, loop.log);
  }

  lemma {:induction false} TakenIsSure(links: Links, order: seq<NodeId>, known: set<SeqId>, s: SeqId, envs: Envs)
    requires IdSet(order) <= Acking(CleanAll(links), s, envs.alloc)
    ensures Sure(CleanAll(links), order, s in known, s, envs.alloc)
  {
  }

  /**
   The second half of an iteration: at most one request is admitted, if there is room, then a batch
   is served.  `ok` says that nothing is left unread.  It is so if nobody leaves and the workers have
   room for a sequence, whether passes fail or not.  If all devices compute and have room, no error
   is sent but where naive generation fails.
   */
  method Work(loop: DistributedLoop, pipeline: DistributedPipeline, cluster: Cluster, registry: PeerRegistry,
              config: Config, envs: Envs, ghost parts: seq<LayerAssignment>, ghost v: nat) returns (ok: bool)
    requires loop.Valid() && cluster.Valid()
    modifies loop`pending, loop`active, loop`log, loop`sent, pipeline`allocatedSeqs, cluster`links
    ensures loop.Valid() && cluster.Valid() && Later(old(loop.log), loop.log) &&
            loop.log.received == old(loop.log).received
    ensures loop.pending ==
      if old(loop.pending) != [] && Admissible(registry.workers, config.minFreeBlocksReserve) then
        old(loop.pending)[1..]
      else old(loop.pending)
    ensures old(Intact(loop, pipeline, cluster, parts, v)) && old(Unfailed(loop, pipeline)) &&
            old(Unclaimed(cluster.links, loop.pending, loop.log)) && NobodyLeaves(pipeline.order, envs) &&
            Able(pipeline.order, envs) ==>
      Unfailed(loop, pipeline)
    ensures loop.limits.maxPrefillTokens > 0 &&
            ((old(loop.pending) != [] && Admissible(registry.workers, config.minFreeBlocksReserve)) ||
             Busy(old(loop.active), loop.limits)) ==>
      Load(loop.pending, loop.active) < old(Load(loop.pending, loop.active))
    ensures forall s :: s in old(loop.active) && !Schedulable(old(loop.active)[s]) ==>
      s in loop.active && loop.active[s] == old(loop.active)[s]
    ensures ok && old(Intact(loop, pipeline, cluster, parts, v)) ==>
      Intact(loop, pipeline, cluster, parts, v) && (old(loop.Right({})) ==> loop.Right({}))
    ensures old(Intact(loop, pipeline, cluster, parts, v)) &&
            (old(loop.pending) != [] ==>
               var s := old(loop.pending)[0].seqId;
               Sure(CleanAll(old(cluster.links)), pipeline.order, s in old(pipeline.allocatedSeqs), s, envs.alloc)) ==>
      (ok <==> Intact(loop, pipeline, cluster, parts, v))
    ensures old(Intact(loop, pipeline, cluster, parts, v)) &&
            old(Unclaimed(cluster.links, loop.pending, loop.log)) && NobodyLeaves(pipeline.order, envs) &&
            HasRoom(pipeline.order, envs) ==>
      ok
    ensures old(Unclaimed(cluster.links, loop.pending, loop.log)) ==> Unclaimed(cluster.links, loop.pending, loop.log)
  {
    hide StateOk, SentOk, Later, SampledRight, RightAnswers, FedOf, ValidLinks, DistributedPipeline.Serving,
      VocabSize, WellFiled, Busy, Total, PendingTotal, Schedulable, Sure, CleanAll, Unclaimed, NobodyLeaves, HasRoom,
      Unmet, EnvsOf, AllStay, StayIn, Acking, HoldNoMore, Intact, Blameless, Unbooked, IsPending, ErrorsFor, AllHealthy,
      Able;
    NothingBusy(loop.limits);
    ghost var kind := Intact(loop, pipeline, cluster, parts, v) && Unclaimed(cluster.links, loop.pending, loop.log) &&
      Unfailed(loop, pipeline) && NobodyLeaves(pipeline.order, envs) && Able(pipeline.order, envs);
    ok := AdmitOne(loop, pipeline, cluster, registry, config, envs, parts, v);
    ghost var booked := pipeline.allocatedSeqs;
    if loop.active == map[] { return; }
    ghost var mid, links := loop.log, cluster.links;
    if NobodyLeaves(pipeline.order, envs) {
      NobodyMet(pipeline.order, Rebalance.ReadyIds(registry.workers), envs);
    }
    if kind { AbleHealthy(pipeline.order, envs); }
    var _, quiet := ServeBatch(loop, pipeline, cluster, registry, envs, parts, v);
    UnclaimedOn(links, cluster.links, {}, loop.pending, mid, loop.pending, loop.log);
    UnbookedOn(booked, pipeline.allocatedSeqs, {}, loop.pending, mid, loop.pending, loop.log);
    ok := ok && quiet;
    LaterTransitive(old(loop.log), mid, loop.log);
  }

  lemma {:induction false} AbleHealthy(order: seq<NodeId>, envs: Envs)
    requires Able(order, envs)
    ensures AllHealthy(order, envs.pass)
  {
  }

  lemma {:induction false} IntactReach(loop: DistributedLoop, pipeline: DistributedPipeline, cluster: Cluster,
                                       parts: seq<LayerAssignment>, v: nat)
    requires Intact(loop, pipeline, cluster, parts, v)
    ensures IdSet(pipeline.order) <= cluster.links.Keys
  {
    hide DistributedPipeline.Serving, VocabSize;
    ServingQuiet(pipeline, cluster, parts, loop.Fed());
  }

  lemma {:induction false} NobodyAllocating(order: seq<NodeId>, envs: Envs)
    requires NobodyLeaves(order, envs)
    ensures AllStay(order, envs.alloc)
  {
  }

  /**
   A degraded loop turns requests away and, with nothing active, waits for a new pipeline or a
   request; a loop without work waits as well.  Otherwise nothing happens here.
   */
  method Pause(loop: DistributedLoop, pipeline: DistributedPipeline, t: Tick)
    returns (p: DistributedPipeline, paused: bool, replaced: bool, stop: bool)
    requires loop.Valid() && (t.wake.Arrival? ==> t.wake.request.seqId !in loop.log.received)
    modifies loop`pending, loop`log, loop`sent, loop`degraded
    ensures loop.Valid() && Later(old(loop.log), loop.log) && (p == pipeline || fresh(p)) &&
            (!replaced ==> p == pipeline)
    ensures old(loop.log).received.Keys <= loop.log.received.Keys
    ensures loop.log.received.Keys <= old(loop.log).received.Keys + if t.wake.Arrival? then {t.wake.request.seqId}
      else {}
    ensures stop ==> paused && loop.pending == [] && loop.active == map[]
    ensures old(loop.degraded) ==> paused
    ensures !paused ==> !replaced && !loop.degraded
    ensures !replaced ==> loop.degraded == old(loop.degraded)
    ensures !old(loop.degraded) && (loop.active != map[] || old(loop.pending) != []) ==>
      !paused && !stop && loop.pending == old(loop.pending) && loop.log == old(loop.log) &&
      loop.degraded == old(loop.degraded)
    ensures loop.Fed() == old(loop.Fed()) && (old(loop.Right({})) ==> loop.Right({}))
    ensures replaced <==> (old(loop.degraded) || old(loop.pending) == []) && loop.active == map[] && t.wake.Replaced?
    ensures replaced ==>
      (p != pipeline <==> t.wake.parts != [] && Contiguous(t.wake.parts, 0)) &&
      (p != pipeline ==> p.order == NodeIds(t.wake.parts) && p.allocatedSeqs == {} && !loop.degraded)
    ensures if old(loop.degraded) then
              forall s :: s in old(loop.log).events ==>
                s in loop.log.events && loop.log.events[s] == old(loop.log).events[s] +
                  if s in WaitingIds(old(loop.pending)) then [ErrorEvent] else []
            else Blameless(loop.model, old(loop.log)) ==> Blameless(loop.model, loop.log)
    ensures stop <==> (old(loop.degraded) || old(loop.pending) == []) && loop.active == map[] && t.wake.Closed?
    ensures forall s :: s in old(loop.log).received && IsPending(loop.pending, s) ==> IsPending(old(loop.pending), s)
  {
    hide StateOk, SentOk, Later, SampledRight, RightAnswers, FedOf;
    SomeLater(loop.pending, loop.active, loop.log, {});
    p, paused, replaced, stop := pipeline, loop.degraded, false, false;
    if loop.degraded { loop.FailPending(); }
    if loop.pending == [] && loop.active == map[] {
      ghost var mid := loop.log;
      p := Awake(loop, pipeline, t.wake);
      LaterTransitive(old(loop.log), mid, loop.log);
      paused, replaced, stop := paused || !t.wake.Arrival?, t.wake.Replaced?, t.wake.Closed?;
    }
  }

  /** With these limits and workers, every request that waits can be admitted and every active one served. */
  ghost predicate Settled(loop: DistributedLoop, registry: PeerRegistry, config: Config)
    reads loop, registry
  {
    !loop.degraded && Steady(registry.workers) && Admissible(registry.workers, config.minFreeBlocksReserve) &&
    Prompted(loop.log) &&
    loop.limits.maxBatchTokens > 0 && loop.limits.maxBatchSize > 0 && loop.limits.maxPrefillTokens > 0
  }

  /** What follows when requests and workers have been seen to: a pause, or work. */
  method Proceed(loop: DistributedLoop, pipeline: DistributedPipeline, cluster: Cluster, registry: PeerRegistry,
                 config: Config, t: Tick, ghost parts: seq<LayerAssignment>, ghost v: nat)
    returns (p: DistributedPipeline, stop: bool, ok: bool)
    requires loop.Valid() && cluster.Valid() && (t.wake.Arrival? ==> t.wake.request.seqId !in loop.log.received)
    modifies loop`pending, loop`active, loop`log, loop`sent, loop`degraded, pipeline`allocatedSeqs, cluster`links
    ensures loop.Valid() && cluster.Valid() && Later(old(loop.log), loop.log) && (p == pipeline || fresh(p)) &&
            (ok ==> p == pipeline)
    ensures loop.log.received.Keys <= old(loop.log).received.Keys +
      if t.wake.Arrival? then {t.wake.request.seqId} else {}
    ensures stop ==> loop.pending == [] && loop.active == map[]
    ensures ok && old(Sane(loop, pipeline, cluster, parts, v)) ==>
      Sane(loop, pipeline, cluster, parts, v) && (old(loop.Right({})) ==> loop.Right({}))
    ensures Peaceful(t, pipeline.order) && old(Undisturbed(loop, pipeline, cluster, registry, parts, v)) ==>
      ok && Undisturbed(loop, pipeline, cluster, registry, parts, v) &&
      (Able(pipeline.order, t.envs) && !old(loop.degraded) && old(Unfailed(loop, pipeline)) ==>
         !loop.degraded && Unfailed(loop, pipeline))
    ensures old(Unclaimed(cluster.links, loop.pending, loop.log)) ==> Unclaimed(cluster.links, loop.pending, loop.log)
    ensures !old(loop.degraded) && (old(loop.pending) != [] || old(loop.active) != map[]) ==>
      !stop && !loop.degraded &&
      forall s :: s in old(loop.active) && !Schedulable(old(loop.active)[s]) ==>
        s in loop.active && loop.active[s] == old(loop.active)[s]
    ensures old(Settled(loop, registry, config)) && (old(loop.pending) != [] || old(loop.active) != map[]) ==>
      Prompted(loop.log) && Load(loop.pending, loop.active) < old(Load(loop.pending, loop.active))
  {
    hide StateOk, SentOk, Later, SampledRight, RightAnswers, FedOf, ValidLinks, DistributedPipeline.Serving, VocabSize,
      WellFiled, Steady, Admissible, Prompted, Load, Schedulable, Busy, Keeps, NothingUnread, Unclaimed, NobodyLeaves,
      HasRoom, Sure, CleanAll, HoldNoMore, IsPending, Intact, Able, Unbooked, Blameless, DistributedLoop.Right;
    ghost var was, waiting := loop.log, loop.pending;
    var paused, replaced;
    HoldSame(cluster.links, {});
    p, paused, replaced, stop := Pause(loop, pipeline, t);
    UnclaimedOn(cluster.links, cluster.links, {}, waiting, was, loop.pending, loop.log);
    UnbookedOn(pipeline.allocatedSeqs, pipeline.allocatedSeqs, {}, waiting, was, loop.pending, loop.log);
    ok := !replaced;
    if paused { return; }
    ghost var mid := loop.log;
    if old(Settled(loop, registry, config)) && loop.active != map[] && mid == was {
      PromptedBusy(loop.pending, loop.active, mid, loop.limits);
    }
    SaneIntact(loop, p, cluster, parts, v);
    var worked := Work(loop, p, cluster, registry, config, t.envs, parts, v);
    SaneIntact(loop, p, cluster, parts, v);
    LaterTransitive(was, mid, loop.log);
    ok := ok && worked;
    if Prompted(was) && loop.log.received.Keys == was.received.Keys { PromptedStays(was, loop.log); }
  }

  /** Nobody can count as dead in the next n heartbeats, of which only the pipeline's workers are part. */
  ghost predicate Outlasts(history: seq<Heartbeats.Event>, workers: Workers, order: seq<NodeId>, n: nat,
                           maxMissed: nat) {
    n > 0 ==> Enlisted(workers, order) && forall id :: Heartbeats.MissedSince(history, id) + n < maxMissed
  }

  lemma {:induction false} OutlastsNow(t: Tick, history: seq<Heartbeats.Event>, workers: Workers, order: seq<NodeId>,
                                       n: nat, maxMissed: nat)
    ensures Outlasts(history, workers, order, n, maxMissed) && Rounds(t) <= n ==>
      Untimed(t, history, workers, order, maxMissed)
  {
    hide Heartbeats.MissedSince, Enlisted;
  }

  lemma {:induction false} OutlastsThen(t: Tick, was: seq<Heartbeats.Event>, workers: Workers,
                                        now: seq<Heartbeats.Event>, workers': Workers, order: seq<NodeId>, n: nat,
                                        maxMissed: nat)
    requires MissedAtMost(was, now, Rounds(t)) && Rounds(t) <= n
    ensures Outlasts(was, workers, order, n, maxMissed) &&
            (Enlisted(workers, order) ==> Enlisted(workers', order)) ==>
      Outlasts(now, workers', order, n - Rounds(t), maxMissed)
  {
    hide Heartbeats.MissedSince, Enlisted;
  }

  /** With n heartbeats to come, nothing will disturb the loop. */
  ghost predicate OnCourse(loop: DistributedLoop, pipeline: DistributedPipeline, cluster: Cluster,
                           registry: PeerRegistry, tracker: Heartbeats.HeartbeatTracker,
                           parts: seq<LayerAssignment>, v: nat, n: nat, maxMissed: nat)
    reads loop, pipeline, cluster, registry, tracker
  {
    Undisturbed(loop, pipeline, cluster, registry, parts, v) &&
    Outlasts(tracker.history, registry.workers, pipeline.order, n, maxMissed)
  }

  /** A sequence that will never be in a batch. */
  ghost predicate Stuck(active: Active) {
    exists s :: s in active && !Schedulable(active[s])
  }

  /** What will never be in a batch stays as it is. */
  ghost predicate StuckStay(was: Active, now: Active) {
    forall s :: s in was && !Schedulable(was[s]) ==> s in now && now[s] == was[s]
  }

  lemma {:induction false} StuckOn(was: Active, now: Active)
    ensures Stuck(was) && StuckStay(was, now) ==> Stuck(now)
  {
    hide Schedulable;
  }

  /** The loop will wait for such a sequence for ever. */
  ghost predicate Waits(degraded: bool, workers: Workers, active: Active) {
    !degraded && Steady(workers) && Stuck(active)
  }

  /**
   One iteration.  It stops only when nothing is pending or active.  `ok` says that no pipeline
   came in from elsewhere, that a new one was laid out over its workers, and that nothing but
   heartbeat acks was left unread; then the workers go on holding what the loop has fed them, and
   active sequences and answers stay true to naive generation, whatever failed or died.  In a
   peaceful tick a loop that is on its course stays on it, and `ok` holds.
   */
  method Iterate(loop: DistributedLoop, pipeline: DistributedPipeline, cluster: Cluster, registry: PeerRegistry,
                 tracker: Heartbeats.HeartbeatTracker, config: Config, t: Tick, ghost parts: seq<LayerAssignment>,
                 ghost v: nat, ghost rounds: nat)
    returns (p: DistributedPipeline, stop: bool, ok: bool, calm: bool, ghost parts': seq<LayerAssignment>)
    requires loop.Valid() && cluster.Valid() && registry.Valid() && tracker.Valid() && config.Valid() &&
             Rounds(t) <= rounds
    requires DistinctRequests(Incoming(t)) && IdsIn(Incoming(t)) !! loop.log.received.Keys
    modifies loop`pending, loop`active, loop`log, loop`sent, loop`degraded, pipeline`allocatedSeqs, cluster`links,
             registry, tracker
    ensures loop.Valid() && cluster.Valid() && registry.Valid() && tracker.Valid() && Later(old(loop.log), loop.log) &&
            (p == pipeline || fresh(p))
    ensures loop.log.received.Keys <= old(loop.log).received.Keys + IdsIn(Incoming(t))
    ensures stop ==> loop.pending == [] && loop.active == map[]
    ensures ok && old(Sane(loop, pipeline, cluster, parts, v)) ==>
      Sane(loop, p, cluster, parts', v) && (old(loop.Right({})) ==> loop.Right({}))
    ensures Peaceful(t, pipeline.order) &&
            old(OnCourse(loop, pipeline, cluster, registry, tracker, parts, v, rounds, config.maxMissed)) ==>
      ok && p == pipeline && parts' == parts &&
      OnCourse(loop, pipeline, cluster, registry, tracker, parts, v, rounds - Rounds(t), config.maxMissed) &&
      (Able(pipeline.order, t.envs) && !old(loop.degraded) && old(Unfailed(loop, pipeline)) ==>
         !loop.degraded && Unfailed(loop, pipeline))
    ensures old(Unclaimed(cluster.links, loop.pending, loop.log)) ==> Unclaimed(cluster.links, loop.pending, loop.log)
    ensures t.beats.None? ==> calm
    ensures Quiet(t) && calm && old(Settled(loop, registry, config)) ==>
      Settled(loop, registry, config) &&
      (stop || Load(loop.pending, loop.active) < old(Load(loop.pending, loop.active)))
    ensures Quiet(t) && calm && Waits(old(loop.degraded), old(registry.workers), old(loop.active)) ==>
      !stop && Waits(loop.degraded, registry.workers, loop.active) && StuckStay(old(loop.active), loop.active)
  {
    hide StateOk, SentOk, Later, SampledRight, RightAnswers, FedOf, ValidLinks, DistributedPipeline.Serving, VocabSize,
      WellFiled, IdsIn, DistinctRequests, Steady, Admissible, Prompted, Load, Schedulable, Keeps, NothingUnread, Sane,
      Unclaimed, Undisturbed, Enlisted, MissedAtMost, Rounds, Untimed, Covered, Heartbeats.MissedSince,
      Heartbeats.CountIn, Peaceful, Outlasts, Able, Unfailed;
    IncomingParts(t);
    ghost var was := loop.log;
    OutlastsNow(t, tracker.history, registry.workers, pipeline.order, rounds, config.maxMissed);
    p, stop, ok, calm, parts' := Observe(loop, pipeline, cluster, registry, tracker, config, t, parts, v);
    ghost var mid := loop.log;
    OutlastsThen(t, old(tracker.history), old(registry.workers), tracker.history, registry.workers, pipeline.order,
                 rounds, config.maxMissed);
    if Prompted(was) && mid.received.Keys == was.received.Keys { PromptedStays(was, mid); }
    if stop { return; }
    var good;
    p, stop, good := Proceed(loop, p, cluster, registry, config, t, parts', v);
    LaterTransitive(was, mid, loop.log);
    StuckOn(old(loop.active), loop.active);
    ok := ok && good;
  }

  lemma {:induction false} IncomingParts(t: Tick)
    requires DistinctRequests(Incoming(t))
    ensures DistinctRequests(t.arrivals) && IdsIn(t.arrivals) <= IdsIn(Incoming(t)) &&
            (t.arrivals == [] ==> IdsIn(t.arrivals) == {})
    ensures t.wake.Arrival? ==> t.wake.request.seqId in IdsIn(Incoming(t)) && t.wake.request.seqId !in IdsIn(t.arrivals)
  {
    var all, n := Incoming(t), |t.arrivals|;
    assert forall i :: 0 <= i < n ==> all[i] == t.arrivals[i];
    if t.wake.Arrival? { assert all[n] == t.wake.request; }
  }

  ghost predicate AllQuiet(ticks: seq<Tick>) {
    forall k :: 0 <= k < |ticks| ==> Quiet(ticks[k])
  }

  /** Ids are never reused: those that come in are new each time. */
  ghost predicate FreshFrom(ticks: seq<Tick>, k: nat, used: set<SeqId>)
    decreases |ticks| - k
  {
    k >= |ticks| ||
    (DistinctRequests(Incoming(ticks[k])) && IdsIn(Incoming(ticks[k])) !! used &&
     FreshFrom(ticks, k + 1, used + IdsIn(Incoming(ticks[k]))))
  }

  lemma {:induction false} AllAnswered(active: Active, log: Log)
    requires StateOk([], active, log, {}) && active == map[]
    ensures log.events.Keys == log.received.Keys && forall s :: s in log.received ==> Answered(log.events[s])
  {
    forall s | s in log.received
      ensures Answered(log.events[s])
    {
      assert !IsPending([], s);
    }
  }

  lemma {:induction false} AllSentRight(log: Log, sent: map<SeqId, seq<Sent>>)
    requires SentOk(log, sent, {})
    ensures forall s :: s in log.received ==>
      s in log.events && s in sent && SentRight(log.received[s], log.events[s], sent[s])
  {
    hide SentRight, Answered;
  }

  lemma {:induction false} AllRight(loop: DistributedLoop)
    requires loop.Right({}) && loop.pending == [] && loop.active == map[]
    ensures loop.log.events.Keys == loop.log.received.Keys &&
            forall s :: s in loop.log.received ==> AnswerRight(loop.model, loop.log.received[s], loop.log.events[s])
  {
    hide AnswerRight, SampledRight;
    forall s | s in loop.log.received
      ensures AnswerRight(loop.model, loop.log.received[s], loop.log.events[s])
    {
      assert !IsPending([], s);
    }
  }

  ghost predicate AllPeaceful(ticks: seq<Tick>, order: seq<NodeId>) {
    forall k :: 0 <= k < |ticks| ==> Peaceful(ticks[k], order)
  }

  ghost predicate AllKindly(ticks: seq<Tick>, order: seq<NodeId>) {
    forall k :: 0 <= k < |ticks| ==> Kindly(ticks[k], order)
  }

  /** The answer is what naive generation gives, and an error if its sampler fails. */
  ghost predicate FullAnswer(m: Model, req: Request, es: seq<Event>) {
    req.prompt != [] &&
    if NaiveFrom(m, req, []).Some? then Tells(req, NaiveFrom(m, req, []).value, es) && ErrorEvent !in es
    else ShownRight(m, req, es) && ErrorEvent in es
  }

  lemma {:induction false} NoErrorTold(req: Request, tokens: seq<nat>, es: seq<Event>)
    requires Tells(req, tokens, es)
    ensures ErrorEvent !in es
  {
    var n := |es| - 1;
    assert es == es[..n] + [es[n]];
  }

  lemma {:induction false} AllFull(loop: DistributedLoop)
    requires loop.Right({}) && Blameless(loop.model, loop.log) && loop.pending == [] && loop.active == map[]
    ensures forall s :: s in loop.log.received ==>
      s in loop.log.events && FullAnswer(loop.model, loop.log.received[s], loop.log.events[s])
  {
    hide SampledRight, RightAnswers, Tells, ShownRight, NaiveFrom;
    AllRight(loop);
    forall s | s in loop.log.received
      ensures FullAnswer(loop.model, loop.log.received[s], loop.log.events[s])
    {
      var req, es := loop.log.received[s], loop.log.events[s];
      assert AnswerRight(loop.model, req, es);
      if ErrorEvent !in es { NoErrorTold(req, NaiveFrom(loop.model, req, []).value, es); }
    }
  }

  /** How many heartbeats there are from tick k on. */
  function RoundsFrom(ticks: seq<Tick>, k: nat): nat
    requires k <= |ticks|
    decreases |ticks| - k
  {
    if k == |ticks| then 0 else Rounds(ticks[k]) + RoundsFrom(ticks, k + 1)
  }

  ghost predicate NoBeats(ticks: seq<Tick>) {
    forall k :: 0 <= k < |ticks| ==> ticks[k].beats.None?
  }

  lemma {:induction false} TickFacts(ticks: seq<Tick>, k: nat, order: seq<NodeId>, used: set<SeqId>)
    requires k < |ticks| && FreshFrom(ticks, k, used)
    ensures DistinctRequests(Incoming(ticks[k])) && IdsIn(Incoming(ticks[k])) !! used &&
            FreshFrom(ticks, k + 1, used + IdsIn(Incoming(ticks[k])))
    ensures NoBeats(ticks) ==> ticks[k].beats.None?
    ensures AllQuiet(ticks) ==> Quiet(ticks[k])
    ensures AllPeaceful(ticks, order) ==> Peaceful(ticks[k], order)
    ensures AllKindly(ticks, order) ==> Able(order, ticks[k].envs)
    ensures RoundsFrom(ticks, k) == Rounds(ticks[k]) + RoundsFrom(ticks, k + 1)
  {
    hide Peaceful, Able, Quiet, IdsIn, DistinctRequests, Incoming;
  }

  lemma {:induction false} KindlyPeaceful(ticks: seq<Tick>, order: seq<NodeId>)
    requires AllKindly(ticks, order)
    ensures AllPeaceful(ticks, order)
  {
    hide Peaceful, Able;
  }

  /**
   A whole run.  When the task returns, every request it ever received has been answered; no
   token follows an answer.  At any time, what has been sent down the pipeline for a request, in
   batches that went through or failed, is its prompt and the tokens shown, from the first on, at
   positions 0, 1, 2 and so on.

   `ok` says that no pipeline came in from elsewhere, that each new one was laid out over its
   workers, and that after no step anything but heartbeat acks was left unread on the pipeline's
   links.  Then the tokens of every answer are the first of naive generation, and an answer without
   an error is what it gives, whatever passes and allocations failed and whatever workers died,
   joined or left.  `ok` holds in every run in which no pipeline comes in from elsewhere, no worker
   of the pipeline announces its leave, every allocation can be made and nobody can count as dead:
   passes may fail, and heartbeats may go unanswered, but for fewer of them than count as death.
   If moreover all devices compute, every answer is in full what naive generation gives.

   `calm` says that the heartbeats changed nothing.  Then, once the channel is closed, the task
   returns after no more iterations than there is work left, whether passes fail or not; it never
   does while a sequence with an empty prompt is active.
   */
  method Task(loop: DistributedLoop, pipeline: DistributedPipeline, cluster: Cluster, registry: PeerRegistry,
              tracker: Heartbeats.HeartbeatTracker, config: Config, ticks: seq<Tick>, ghost parts: seq<LayerAssignment>,
              ghost v: nat)
    returns (p: DistributedPipeline, stopped: bool, ok: bool, calm: bool, ghost parts': seq<LayerAssignment>)
    requires loop.Valid() && cluster.Valid() && registry.Valid() && tracker.Valid() && config.Valid() &&
             FreshFrom(ticks, 0, loop.log.received.Keys)
    modifies loop`pending, loop`active, loop`log, loop`sent, loop`degraded, pipeline`allocatedSeqs, cluster`links,
             registry, tracker
    ensures loop.Valid() && cluster.Valid() && registry.Valid() && tracker.Valid() && Later(old(loop.log), loop.log) &&
            (p == pipeline || fresh(p))
    ensures forall s :: s in loop.log.received ==>
      s in loop.log.events && s in loop.sent && SentRight(loop.log.received[s], loop.log.events[s], loop.sent[s])
    ensures stopped ==> forall s :: s in loop.log.received ==> s in loop.log.events && Answered(loop.log.events[s])
    ensures ok && old(Sane(loop, pipeline, cluster, parts, v)) ==> Sane(loop, p, cluster, parts', v)
    ensures ok && old(Sane(loop, pipeline, cluster, parts, v)) && old(loop.Right({})) ==>
      loop.Right({}) &&
      (stopped ==>
         forall s :: s in loop.log.received ==>
           s in loop.log.events && AnswerRight(loop.model, loop.log.received[s], loop.log.events[s]))
    ensures AllPeaceful(ticks, pipeline.order) &&
            old(OnCourse(loop, pipeline, cluster, registry, tracker, parts, v, RoundsFrom(ticks, 0),
                         config.maxMissed)) ==>
      ok && p == pipeline && parts' == parts
    ensures AllKindly(ticks, pipeline.order) && !old(loop.degraded) && old(Unfailed(loop, pipeline)) &&
            old(OnCourse(loop, pipeline, cluster, registry, tracker, parts, v, RoundsFrom(ticks, 0),
                         config.maxMissed)) ==>
      Unfailed(loop, pipeline) &&
      (stopped ==>
         forall s :: s in loop.log.received ==>
           s in loop.log.events && FullAnswer(loop.model, loop.log.received[s], loop.log.events[s]))
    ensures old(Unclaimed(cluster.links, loop.pending, loop.log)) ==> Unclaimed(cluster.links, loop.pending, loop.log)
    ensures NoBeats(ticks) ==> calm
    ensures AllQuiet(ticks) && calm && old(Settled(loop, registry, config)) &&
            |ticks| > old(Load(loop.pending, loop.active)) ==>
      stopped
    ensures AllQuiet(ticks) && calm && old(Waits(loop.degraded, registry.workers, loop.active)) ==> !stopped
  {
    hide Load, Schedulable, Settled, Steady, StateOk, SentOk, Later, SampledRight, RightAnswers, FedOf, ValidLinks,
      VocabSize, WellFiled, Answered, AnswerRight, SentRight, Sane, Unclaimed, OnCourse, Peaceful, RoundsFrom, Rounds,
      Heartbeats.MissedSince, Heartbeats.CountIn, IdsIn, DistinctRequests, Quiet, Incoming, Waits, StuckStay,
      FreshFrom, NoBeats, AllQuiet, AllPeaceful, AllKindly, Able, Blameless, Unbooked, FullAnswer;
    ghost var sane, right := Sane(loop, pipeline, cluster, parts, v), loop.Right({});
    ghost var peaceful := AllPeaceful(ticks, pipeline.order) &&
      OnCourse(loop, pipeline, cluster, registry, tracker, parts, v, RoundsFrom(ticks, 0), config.maxMissed);
    ghost var kind := AllKindly(ticks, pipeline.order) && !loop.degraded && Unfailed(loop, pipeline) &&
      OnCourse(loop, pipeline, cluster, registry, tracker, parts, v, RoundsFrom(ticks, 0), config.maxMissed);
    if kind { KindlyPeaceful(ticks, pipeline.order); }
    ghost var settled := AllQuiet(ticks) && Settled(loop, registry, config);
    ghost var stuck := AllQuiet(ticks) && Waits(loop.degraded, registry.workers, loop.active);
    p, stopped, ok, calm, parts' := pipeline, false, true, true, parts;
    ghost var was, used, load := loop.log, loop.log.received.Keys, Load(loop.pending, loop.active);
    SomeLater(loop.pending, loop.active, loop.log, {});
    var k := 0;
    while k < |ticks| && !stopped
      invariant k <= |ticks| && loop.Valid() && cluster.Valid() && registry.Valid() && tracker.Valid() &&
                Later(was, loop.log) && (p == pipeline || fresh(p))
      invariant loop.log.received.Keys <= used && FreshFrom(ticks, k, used)
      invariant stopped ==> loop.pending == [] && loop.active == map[]
      invariant NoBeats(ticks) ==> calm
      invariant settled && calm ==>
        Settled(loop, registry, config) && (stopped || Load(loop.pending, loop.active) + k <= load)
      invariant stuck && calm ==>
        !stopped && Waits(loop.degraded, registry.workers, loop.active)
      invariant ok && sane ==> Sane(loop, p, cluster, parts', v) && (right ==> loop.Right({}))
      invariant peaceful ==>
        ok && p == pipeline && parts' == parts &&
        OnCourse(loop, pipeline, cluster, registry, tracker, parts, v, RoundsFrom(ticks, k), config.maxMissed)
      invariant kind ==> peaceful && !loop.degraded && Unfailed(loop, pipeline)
      invariant old(Unclaimed(cluster.links, loop.pending, loop.log)) ==>
        Unclaimed(cluster.links, loop.pending, loop.log)
      decreases |ticks| - k
    {
      ghost var mid := loop.log;
      TickFacts(ticks, k, pipeline.order, used);
      var good, still;
      p, stopped, good, still, parts' := Iterate(loop, p, cluster, registry, tracker, config, ticks[k], parts', v,
                                                 RoundsFrom(ticks, k));
      LaterTransitive(was, mid, loop.log);
      ok, calm := ok && good, calm && still;
      used := used + IdsIn(Incoming(ticks[k]));
      k := k + 1;
    }
    AllSentRight(loop.log, loop.sent);
    if stopped {
      AllAnswered(loop.active, loop.log);
      if loop.Right({}) { AllRight(loop); }
      if kind { AllFull(loop); }
    }
  }
}
