/**
 `forced_rebalance`: abort the sequences, schedule the workers that are left, reconfigure them
 and build the new pipeline.  It runs as one step; a send fails iff the worker has no link.
 */
module Rebalance {
  import opened Core
  import opened Transformer
  import opened Nodes
  import opened PipelineLayout
  import opened WorkerProtocol
  import opened DistributedPipelines
  import opened Coordination
  import opened Registry
  import opened Sorting
  import LayerScheduler
  import PipelineMeaning

  type Parts = seq<LayerScheduler.Assignment>

  // ----- who is scheduled -----

  function Retain(caps: seq<LayerScheduler.Capabilities>, skip: set<NodeId>): seq<LayerScheduler.Capabilities> {
    if caps == [] then []
    else Retain(caps[..|caps| - 1], skip) + if caps[|caps| - 1].nodeId in skip then [] else [caps[|caps| - 1]]
  }

  lemma {:induction false} RetainFacts(caps: seq<LayerScheduler.Capabilities>, skip: set<NodeId>)
    ensures forall x :: x in Retain(caps, skip) <==> x in caps && x.nodeId !in skip
    ensures LayerScheduler.DistinctCaps(caps) ==> LayerScheduler.DistinctCaps(Retain(caps, skip))
  {
    if caps != [] {
      var n := |caps| - 1;
      RetainFacts(caps[..n], skip);
      assert caps == caps[..n] + [caps[n]];
      if LayerScheduler.DistinctCaps(caps) {
        var kept := Retain(caps[..n], skip);
        forall i | 0 <= i < |kept|
          ensures kept[i].nodeId != caps[n].nodeId
        {
          assert kept[i] in caps[..n];
        }
      }
    }
  }

  /** What is scheduled is what the workers can do that are neither dead nor skipped. */
  ghost predicate Scheduled(workers: Workers, caps: seq<LayerScheduler.Capabilities>, skip: set<NodeId>) {
    LayerScheduler.DistinctCaps(caps) &&
    (forall i :: 0 <= i < |caps| ==>
      caps[i].nodeId in workers && workers[caps[i].nodeId].status != Dead && caps[i].nodeId !in skip &&
      workers[caps[i].nodeId].caps == caps[i]) &&
    (forall id :: id in workers && workers[id].status != Dead && id !in skip ==>
       exists i :: 0 <= i < |caps| && caps[i].nodeId == id)
  }

  lemma {:induction false} RetainScheduled(workers: Workers, caps: seq<LayerScheduler.Capabilities>, skip: set<NodeId>)
    requires Alive(workers, caps)
    ensures Scheduled(workers, Retain(caps, skip), skip)
  {
    RetainFacts(caps, skip);
    var kept := Retain(caps, skip);
    forall i | 0 <= i < |kept|
      ensures kept[i].nodeId in workers && workers[kept[i].nodeId].status != Dead && kept[i].nodeId !in skip &&
              workers[kept[i].nodeId].caps == kept[i]
    {
      assert kept[i] in caps;
    }
    forall id | id in workers && workers[id].status != Dead && id !in skip
      ensures exists i :: 0 <= i < |kept| && kept[i].nodeId == id
    {
      var j :| 0 <= j < |caps| && caps[j].nodeId == id;
      assert caps[j] in kept;
    }
  }

  // ----- assigning and reconfiguring -----

  ghost predicate DistinctParts(parts: Parts) {
    forall i, j :: 0 <= i < j < |parts| ==> parts[i].nodeId != parts[j].nodeId
  }

  ghost predicate Named(parts: Parts, n: nat, id: NodeId) {
    exists i :: 0 <= i < n <= |parts| && parts[i].nodeId == id
  }

  /** The first n parts are assigned; a worker that cannot be reached is dead. */
  ghost predicate AssignedUpTo(was: Workers, now: Workers, parts: Parts, reachable: set<NodeId>, n: nat) {
    n <= |parts| && now.Keys == was.Keys &&
    (forall i :: 0 <= i < n ==>
      parts[i].nodeId in was &&
      now[parts[i].nodeId] == was[parts[i].nodeId].(assignment := Some(parts[i]),
                                                    status := if parts[i].nodeId in reachable then Ready else Dead)) &&
    (forall id :: id in was && !Named(parts, n, id) ==> now[id] == was[id])
  }

  lemma {:induction false} AssignNext(was: Workers, now: Workers, parts: Parts, reachable: set<NodeId>, n: nat)
    requires AssignedUpTo(was, now, parts, reachable, n) && n < |parts| && DistinctParts(parts) &&
             parts[n].nodeId in was
    ensures now[parts[n].nodeId] == was[parts[n].nodeId]
    ensures AssignedUpTo(was, now[parts[n].nodeId := was[parts[n].nodeId].(assignment := Some(parts[n]),
                         status := if parts[n].nodeId in reachable then Ready else Dead)], parts, reachable, n + 1)
  {
    assert !Named(parts, n, parts[n].nodeId);
    forall id | id in was && !Named(parts, n + 1, id)
      ensures !Named(parts, n, id) && id != parts[n].nodeId
    {
    }
  }

  /** The first n parts have been told their layers, as far as they can be reached. */
  ghost predicate ToldUpTo(m: Model, was: Links, now: Links, parts: Parts, total: nat, env: NodeId -> Env, n: nat) {
    n <= |parts| && ValidLinks(m, was) && now.Keys == was.Keys &&
    (forall i :: 0 <= i < n && parts[i].nodeId in was ==>
      now[parts[i].nodeId] == Handled(m, was[parts[i].nodeId], Reconfigure(parts[i].start, parts[i].end, total),
                                      env(parts[i].nodeId))) &&
    (forall id :: id in was && !Named(parts, n, id) ==> now[id] == was[id])
  }

  lemma {:induction false} ToldNext(m: Model, was: Links, now: Links, parts: Parts, total: nat, env: NodeId -> Env,
                                    n: nat)
    requires ToldUpTo(m, was, now, parts, total, env, n) && n < |parts| && DistinctParts(parts)
    ensures var id := parts[n].nodeId;
            if id in was
            then now[id] == was[id] &&
                 ToldUpTo(m, was, now[id := Handled(m, was[id], Reconfigure(parts[n].start, parts[n].end, total),
                                                    env(id))], parts, total, env, n + 1)
            else ToldUpTo(m, was, now, parts, total, env, n + 1)
  {
    hide Handled, ValidWorker;
    var id := parts[n].nodeId;
    assert !Named(parts, n, id);
    forall g | g in was && !Named(parts, n + 1, g)
      ensures !Named(parts, n, g) && g != id
    {
    }
    if id in was { assert ValidWorker(m, was[id].worker); }
  }

  /** Step 3: assign and tell each worker; one that cannot be reached is marked dead. */
  method AssignAll(registry: PeerRegistry, cluster: Cluster, parts: Parts, total: nat, env: NodeId -> Env)
    requires registry.Valid() && cluster.Valid() && DistinctParts(parts)
    requires forall i :: 0 <= i < |parts| ==>
      parts[i].nodeId in registry.workers && registry.workers[parts[i].nodeId].status != Dead
    modifies registry, cluster`links
    ensures registry.Valid() && cluster.Valid() && cluster.links.Keys == old(cluster.links).Keys
    ensures AssignedUpTo(old(registry.workers), registry.workers, parts, cluster.links.Keys, |parts|)
    ensures ToldUpTo(cluster.m, old(cluster.links), cluster.links, parts, total, env, |parts|)
  {
    hide AssignedUpTo, ToldUpTo, Handled, Delivered, CleanAll, ValidWorker;
    ghost var was, links := registry.workers, cluster.links;
    Nothing(cluster.m, was, links, parts, total, env);
    for n := 0 to |parts|
      invariant registry.Valid() && cluster.Valid() && cluster.links.Keys == links.Keys
      invariant AssignedUpTo(was, registry.workers, parts, links.Keys, n)
      invariant ToldUpTo(cluster.m, links, cluster.links, parts, total, env, n)
    {
      var a := parts[n];
      AssignNext(was, registry.workers, parts, links.Keys, n);
      ToldNext(cluster.m, links, cluster.links, parts, total, env, n);
      SameIds(was, registry.workers, parts, links.Keys, n);
      ghost var before := registry.workers;
      var given := registry.Assign(a.nodeId, a);
      var sent := cluster.Send(a.nodeId, Reconfigure(a.start, a.end, total), env(a.nodeId));
      if sent.Err? { registry.MarkDead(a.nodeId); }
      assert registry.workers == before[a.nodeId := before[a.nodeId].(assignment := Some(a),
                                        status := if a.nodeId in links.Keys then Ready else Dead)];
    }
  }

  lemma {:induction false} SameIds(was: Workers, now: Workers, parts: Parts, reachable: set<NodeId>, n: nat)
    requires AssignedUpTo(was, now, parts, reachable, n)
    ensures now.Keys == was.Keys
  {
  }

  lemma {:induction false} Nothing(m: Model, workers: Workers, links: Links, parts: Parts, total: nat,
                                   env: NodeId -> Env)
    requires ValidLinks(m, links)
    ensures AssignedUpTo(workers, workers, parts, links.Keys, 0) && ToldUpTo(m, links, links, parts, total, env, 0)
  {
  }

  // ----- what the registry says afterwards -----

  lemma {:induction false} TilesAscending(parts: Parts, total: nat, i: nat, j: nat)
    requires Tiles(LayerScheduler.Layout(parts), total) && i < j < |parts|
    ensures parts[i].start < parts[j].start
  {
    var ls := LayerScheduler.Layout(parts);
    Ascending(ls, 0, i, j);
    assert ls[i].start < ls[i].end;
  }

  lemma {:induction false} LayoutIds(parts: Parts)
    ensures |PipelineMeaning.NodeIds(LayerScheduler.Layout(parts))| == |parts|
    ensures forall i :: 0 <= i < |parts| ==> PipelineMeaning.NodeIds(LayerScheduler.Layout(parts))[i] == parts[i].nodeId
  {
  }

  /** Who serves after the assignment: those assigned that can be reached, and those left out that served before. */
  lemma {:induction false} ServingAfter(was: Workers, now: Workers, parts: Parts, reachable: set<NodeId>, id: NodeId)
    requires AssignedUpTo(was, now, parts, reachable, |parts|) && id in was
    ensures now[id].Serving() <==> if Named(parts, |parts|, id) then id in reachable else was[id].Serving()
  {
    if Named(parts, |parts|, id) {
      var i :| 0 <= i < |parts| && parts[i].nodeId == id;
    }
  }

  /**
   The registry's pipeline order is that of the new pipeline iff every worker of the new
   pipeline can be reached and no worker left out was serving.
   */
  lemma {:induction false} Agreement(was: Workers, now: Workers, parts: Parts, reachable: set<NodeId>, total: nat,
                                     order: seq<NodeId>)
    requires AssignedUpTo(was, now, parts, reachable, |parts|) && DistinctParts(parts) &&
             Tiles(LayerScheduler.Layout(parts), total)
    requires InOrder(now, order)
    ensures order == PipelineMeaning.NodeIds(LayerScheduler.Layout(parts)) <==>
      (forall i :: 0 <= i < |parts| ==> parts[i].nodeId in reachable) &&
      (forall id :: id in was && !Named(parts, |parts|, id) ==> !was[id].Serving())
  {
    hide Tiles;
    LayoutIds(parts);
    var ids := PipelineMeaning.NodeIds(LayerScheduler.Layout(parts));
    var key := StartKey(now);
    forall id | id in was
      ensures now[id].Serving() <==> if Named(parts, |parts|, id) then id in reachable else was[id].Serving()
    {
      ServingAfter(was, now, parts, reachable, id);
    }
    if (forall i :: 0 <= i < |parts| ==> parts[i].nodeId in reachable) &&
       (forall id :: id in was && !Named(parts, |parts|, id) ==> !was[id].Serving()) {
      forall id
        ensures id in order <==> id in ids
      {
        NamedIn(parts, id);
      }
      forall i, j | 0 <= i < j < |ids|
        ensures key(ids[i]) < key(ids[j])
      {
        TilesAscending(parts, total, i, j);
      }
      SameCount(order, ids);
      OneOrder(order, ids, key);
    }
    if order == ids {
      forall i | 0 <= i < |parts|
        ensures parts[i].nodeId in reachable
      {
        assert ids[i] in order && Named(parts, |parts|, parts[i].nodeId);
      }
      forall id | id in was && !Named(parts, |parts|, id)
        ensures !was[id].Serving()
      {
        NamedIn(parts, id);
      }
    }
  }

  lemma {:induction false} NamedIn(parts: Parts, id: NodeId)
    ensures id in PipelineMeaning.NodeIds(LayerScheduler.Layout(parts)) <==> Named(parts, |parts|, id)
  {
    LayoutIds(parts);
    var ids := PipelineMeaning.NodeIds(LayerScheduler.Layout(parts));
    if id in ids {
      var i :| 0 <= i < |ids| && ids[i] == id;
    }
    if Named(parts, |parts|, id) {
      var i :| 0 <= i < |parts| && parts[i].nodeId == id;
      assert ids[i] == id;
    }
  }

  // ----- waiting for the workers -----

  ghost function Popped(l: Link): Link {
    Link(l.worker, if l.outbox == [] then [] else l.outbox[1..])
  }

  /** One message has been taken, unskipped, from the stream of each of the first n parts. */
  ghost predicate PoppedUpTo(was: Links, now: Links, parts: Parts, n: nat) {
    n <= |parts| && now.Keys == was.Keys &&
    (forall i :: 0 <= i < n && parts[i].nodeId in was ==> now[parts[i].nodeId] == Popped(was[parts[i].nodeId])) &&
    (forall id :: id in was && !Named(parts, n, id) ==> now[id] == was[id])
  }

  lemma {:induction false} PopNext(was: Links, now: Links, parts: Parts, n: nat)
    requires PoppedUpTo(was, now, parts, n) && n < |parts| && DistinctParts(parts)
    ensures var id := parts[n].nodeId;
            if id in was then now[id] == was[id] && PoppedUpTo(was, now[id := Popped(was[id])], parts, n + 1)
            else PoppedUpTo(was, now, parts, n + 1)
  {
    var id := parts[n].nodeId;
    assert !Named(parts, n, id);
    forall g | g in was && !Named(parts, n + 1, g)
      ensures !Named(parts, n, g) && g != id
    {
    }
  }

  /** Step 4: one message is read from each worker, whatever it is; a surprise is only logged. */
  method AwaitReady(cluster: Cluster, parts: Parts)
    requires cluster.Valid() && DistinctParts(parts)
    modifies cluster`links
    ensures cluster.Valid() && PoppedUpTo(old(cluster.links), cluster.links, parts, |parts|)
  {
    hide PoppedUpTo, Popped, ValidLinks;
    ghost var was := cluster.links;
    PopNone(was, parts);
    for n := 0 to |parts|
      invariant cluster.Valid() && PoppedUpTo(was, cluster.links, parts, n)
    {
      var id := parts[n].nodeId;
      PopNext(was, cluster.links, parts, n);
      PoppedKeys(was, cluster.links, parts, n);
      if id in cluster.links {
        var l := cluster.links[id];
        var rest := if l.outbox == [] then [] else l.outbox[1..];
        PoppedIs(l);
        StillValid(cluster.m, cluster.links, id, rest);
        cluster.links := cluster.links[id := Link(l.worker, rest)];
      }
    }
  }

  lemma {:induction false} PopNone(links: Links, parts: Parts)
    ensures PoppedUpTo(links, links, parts, 0)
  {
  }

  lemma {:induction false} StillValid(m: Model, links: Links, id: NodeId, outbox: seq<Reply>)
    requires ValidLinks(m, links) && id in links
    ensures ValidLinks(m, links[id := Link(links[id].worker, outbox)])
  {
  }

  lemma {:induction false} PoppedKeys(was: Links, now: Links, parts: Parts, n: nat)
    requires PoppedUpTo(was, now, parts, n)
    ensures now.Keys == was.Keys
  {
  }

  lemma {:induction false} PoppedIs(l: Link)
    ensures Popped(l) == Link(l.worker, if l.outbox == [] then [] else l.outbox[1..])
  {
  }

  /** The stream of a worker that has been told its layers. */
  ghost function ReadyStream(outbox: seq<Reply>, before: seq<Beat>, leaves: bool, after: seq<Beat>): (all: seq<Reply>)
    ensures all != []
  {
    outbox + Acks(before) + (Intent(leaves) + [WorkerReady]) + Acks(after)
  }

  /**
   A reconfigured worker is left without unread replies iff nothing at all was unread before, no
   heartbeat was answered first and no leave announced: the read takes the first message it
   finds for the reply.
   */
  lemma {:induction false} QuietIffFirst(outbox: seq<Reply>, before: seq<Beat>, leaves: bool, after: seq<Beat>)
    ensures Strip(ReadyStream(outbox, before, leaves, after)[1..]) == [] <==> outbox == [] && before == [] && !leaves
  {
    var all := ReadyStream(outbox, before, leaves, after);
    SentStrip(outbox, before, Intent(leaves) + [WorkerReady], after);
    StripAppend(Intent(leaves), [WorkerReady]);
    StripIntent(leaves);
    OneReply(WorkerReady);
    assert Strip(all) == Strip(outbox) + (Intent(leaves) + [WorkerReady]);
    assert Strip(all) == (if all[0].HeartbeatAck? then [] else [all[0]]) + Strip(all[1..]);
    if outbox == [] && before == [] {
      assert all == Intent(leaves) + [WorkerReady] + Acks(after);
      assert all[0] == if leaves then LeaveIntent else WorkerReady;
    } else if outbox == [] {
      assert all[0] == HeartbeatAck(before[0]);
    } else {
      assert all[0] == outbox[0];
      assert Strip(outbox) == (if outbox[0].HeartbeatAck? then [] else [outbox[0]]) + Strip(outbox[1..]);
    }
  }

  /** The worker has answered a heartbeat first: the ack is read, and `WorkerReady` is left for the next pass. */
  lemma {:induction false} AckReadInstead(beat: Beat, after: seq<Beat>)
    ensures Strip(ReadyStream([], [beat], false, after)[1..]) == [WorkerReady]
  {
    var all := ReadyStream([], [beat], false, after);
    assert all[1..] == [WorkerReady] + Acks(after);
    assert all[1..][1..] == Acks(after);
    StripAcks(after);
  }

  /** The worker has announced its leave first: the announcement is read, and is lost as one. */
  lemma {:induction false} LeaveReadInstead(after: seq<Beat>)
    ensures ReadyStream([], [], true, after)[0] == LeaveIntent
    ensures Strip(ReadyStream([], [], true, after)[1..]) == [WorkerReady]
  {
    var all := ReadyStream([], [], true, after);
    assert all[1..] == [WorkerReady] + Acks(after);
    assert all[1..][1..] == Acks(after);
    StripAcks(after);
  }

  /** A told and read stage: laid out as assigned, and quiet under the condition above. */
  lemma {:induction false} StageAfter(m: Model, l: Link, a: LayerScheduler.Assignment, env: Env)
    requires ValidWorker(m, l.worker) && a.start < a.end <= |m.layers|
    ensures var l' := Popped(Handled(m, l, Reconfigure(a.start, a.end, |m.layers|), env));
            ValidWorker(m, l'.worker) && l'.worker.cfg == NodeConfig(a.start, a.end, |m.layers|) &&
            l'.worker.hiddenSize == l.worker.hiddenSize && l'.worker.handles == map[] &&
            l'.worker.pagedHandles == map[] &&
            (Strip(l'.outbox) == [] <==> QuietBefore(l, env))
  {
    QuietIffFirst(l.outbox, env.acksBefore, env.leaves, env.acksAfter);
  }

  /** Nothing comes before the worker's answer. */
  ghost predicate QuietBefore(l: Link, env: Env) {
    l.outbox == [] && env.acksBefore == [] && !env.leaves
  }

  ghost predicate Reachable(links: Links, parts: Parts, hiddenSize: nat) {
    forall i :: 0 <= i < |parts| ==> parts[i].nodeId in links && links[parts[i].nodeId].worker.hiddenSize == hiddenSize
  }

  ghost predicate NothingUnread(links: Links, parts: Parts, env: NodeId -> Env) {
    forall i :: 0 <= i < |parts| && parts[i].nodeId in links ==>
      QuietBefore(links[parts[i].nodeId], env(parts[i].nodeId))
  }

  /**
   After step 4 the new pipeline is laid out over the workers, and it serves from scratch iff
   no worker had anything unread, heartbeat acks and leaves included, when it answered.
   */
  lemma {:induction false} RebalancedServes(m: Model, was: Links, told: Links, now: Links, parts: Parts,
                                            env: NodeId -> Env, hiddenSize: nat, paged: bool)
    requires ToldUpTo(m, was, told, parts, |m.layers|, env, |parts|) && PoppedUpTo(told, now, parts, |parts|)
    requires DistinctParts(parts) && Tiles(LayerScheduler.Layout(parts), |m.layers|) && ValidLinks(m, now)
    requires Reachable(was, parts, hiddenSize)
    ensures PipelineMeaning.Laid(m, LayerScheduler.Layout(parts), hiddenSize, CleanAll(now))
    ensures PipelineMeaning.Tracks(m, LayerScheduler.Layout(parts), hiddenSize, CleanAll(now), paged, map[]) <==>
      NothingUnread(was, parts, env)
  {
    hide ToldUpTo, PoppedUpTo, CleanAll, PipelineMeaning.LaidAt, PipelineMeaning.QuietAt, ValidLinks, Tiles,
      QuietBefore;
    var ls, clean := LayerScheduler.Layout(parts), CleanAll(now);
    CleanValid(m, now);
    forall i | 0 <= i < |ls|
      ensures ls[i].nodeId == parts[i].nodeId && PipelineMeaning.LaidAt(m, ls[i], hiddenSize, clean)
      ensures PipelineMeaning.QuietAt(ls[i], clean) <==>
        QuietBefore(was[parts[i].nodeId], env(parts[i].nodeId))
    {
      OneStageAfter(m, was, told, now, parts, env, hiddenSize, i);
    }
  }

  lemma {:induction false} OneStageAfter(m: Model, was: Links, told: Links, now: Links, parts: Parts,
                                         env: NodeId -> Env, hiddenSize: nat, i: nat)
    requires ToldUpTo(m, was, told, parts, |m.layers|, env, |parts|) && PoppedUpTo(told, now, parts, |parts|)
    requires Tiles(LayerScheduler.Layout(parts), |m.layers|) && i < |parts|
    requires parts[i].nodeId in was && was[parts[i].nodeId].worker.hiddenSize == hiddenSize
    ensures var a := LayerScheduler.Layout(parts)[i];
            PipelineMeaning.LaidAt(m, a, hiddenSize, CleanAll(now)) &&
            (PipelineMeaning.QuietAt(a, CleanAll(now)) <==> QuietBefore(was[parts[i].nodeId], env(parts[i].nodeId)))
  {
    hide Handled, Strip, Popped, CleanAll, ValidWorker, QuietBefore;
    var id := parts[i].nodeId;
    TilesWithin(LayerScheduler.Layout(parts), |m.layers|);
    assert LayerScheduler.Layout(parts)[i].start < LayerScheduler.Layout(parts)[i].end <= |m.layers|;
    assert id in was && ValidWorker(m, was[id].worker);
    StageAfter(m, was[id], parts[i], env(id));
    CleanOne(now, id);
  }

  // ----- the whole step -----

  /** The schedule's parts name scheduled workers, each once. */
  lemma {:induction false} PartsNamed(workers: Workers, caps: seq<LayerScheduler.Capabilities>, skip: set<NodeId>,
                                      nodes: seq<LayerScheduler.Capabilities>, parts: Parts)
    requires Scheduled(workers, caps, skip) && LayerScheduler.DistinctCaps(nodes) && |parts| == |nodes|
    requires forall i :: 0 <= i < |nodes| ==> nodes[i] in caps && parts[i].nodeId == nodes[i].nodeId
    ensures DistinctParts(parts)
    ensures forall i :: 0 <= i < |parts| ==>
      parts[i].nodeId in workers && workers[parts[i].nodeId].status != Dead && parts[i].nodeId !in skip
    ensures nodes == caps ==>
      forall id :: Named(parts, |parts|, id) <==> id in workers && workers[id].status != Dead && id !in skip
  {
    forall i | 0 <= i < |parts|
      ensures parts[i].nodeId in workers && workers[parts[i].nodeId].status != Dead && parts[i].nodeId !in skip
    {
      assert nodes[i] in caps;
      var j :| 0 <= j < |caps| && caps[j] == nodes[i];
    }
    if nodes == caps {
      forall id
        ensures Named(parts, |parts|, id) <==> id in workers && workers[id].status != Dead && id !in skip
      {
        if id in workers && workers[id].status != Dead && id !in skip {
          var i :| 0 <= i < |caps| && caps[i].nodeId == id;
          assert parts[i].nodeId == id;
        }
      }
    }
  }

  /** In an accepted schedule part i is for node i, and the new pipeline takes the parts iff they tile the model. */
  lemma {:induction false} SoundParts(nodes: seq<LayerScheduler.Capabilities>, r: LayerScheduler.Schedule,
                                      perLayer: nat, c: LayerScheduler.ModelConfig)
    requires LayerScheduler.Sound(nodes, r, perLayer, c)
    ensures |r.assignments| == |nodes| && forall i :: 0 <= i < |nodes| ==> r.assignments[i].nodeId == nodes[i].nodeId
    ensures Contiguous(LayerScheduler.Layout(r.assignments), 0) && r.assignments != [] ==>
      Tiles(LayerScheduler.Layout(r.assignments), c.numLayers)
  {
  }

  /** The scheduler's decision on the workers that are neither dead nor skipped, with hops of 2 ms. */
  ghost predicate Decided(workers: Workers, skip: set<NodeId>, c: LayerScheduler.ModelConfig,
                          mode: LayerScheduler.Mode, maxSeqLen: nat, caps: seq<LayerScheduler.Capabilities>,
                          s: Result<LayerScheduler.Schedule>, nodes: seq<LayerScheduler.Capabilities>) {
    Scheduled(workers, caps, skip) &&
    LayerScheduler.Decides(LayerScheduler.SchedulerInput(c, caps, None, mode, maxSeqLen, 2.0), s, nodes)
  }

  /** There is a pipeline iff the scheduler accepts and gives consecutive ranges of which none is empty. */
  ghost predicate Offered(workers: Workers, skip: set<NodeId>, c: LayerScheduler.ModelConfig,
                          mode: LayerScheduler.Mode, maxSeqLen: nat, ok: bool) {
    exists caps, s, nodes ::
      Decided(workers, skip, c, mode, maxSeqLen, caps, s, nodes) &&
      (ok <==> s.Ok? && s.value.assignments != [] && Contiguous(LayerScheduler.Layout(s.value.assignments), 0))
  }

  /** Whether workers are dead or skipped makes no difference. */
  lemma {:induction false} OfferedAlike(was: Workers, now: Workers, skip: set<NodeId>, c: LayerScheduler.ModelConfig,
                                        mode: LayerScheduler.Mode, maxSeqLen: nat, ok: bool)
    requires now.Keys == was.Keys && Offered(now, skip, c, mode, maxSeqLen, ok)
    requires forall id :: id in was ==>
      now[id].caps == was[id].caps && (id !in skip ==> now[id].status == was[id].status)
    ensures Offered(was, skip, c, mode, maxSeqLen, ok)
  {
    hide LayerScheduler.Decides, Contiguous, LayerScheduler.DistinctCaps;
    var caps, s, nodes :|
      Decided(now, skip, c, mode, maxSeqLen, caps, s, nodes) &&
      (ok <==> s.Ok? && s.value.assignments != [] && Contiguous(LayerScheduler.Layout(s.value.assignments), 0));
    assert Scheduled(was, caps, skip);
    assert Decided(was, skip, c, mode, maxSeqLen, caps, s, nodes);
  }

  method Schedulable(registry: PeerRegistry, c: LayerScheduler.ModelConfig, mode: LayerScheduler.Mode, maxSeqLen: nat,
                     skip: set<NodeId>)
    returns (r: Result<LayerScheduler.Schedule>, ghost caps: seq<LayerScheduler.Capabilities>,
             ghost nodes: seq<LayerScheduler.Capabilities>)
    requires registry.Valid() && (c.numLayers > 0 || mode != LayerScheduler.Manual([]))
    ensures r.Ok? ==>
      DistinctParts(r.value.assignments) && r.value.assignments != [] &&
      (Contiguous(LayerScheduler.Layout(r.value.assignments), 0) ==>
         Tiles(LayerScheduler.Layout(r.value.assignments), c.numLayers)) &&
      forall i :: 0 <= i < |r.value.assignments| ==>
        var id := r.value.assignments[i].nodeId;
        id in registry.workers && registry.workers[id].status != Dead && id !in skip
    ensures r.Ok? && mode.EqualSplit? ==>
      forall id :: Named(r.value.assignments, |r.value.assignments|, id) <==>
        id in registry.workers && registry.workers[id].status != Dead && id !in skip
    ensures Decided(registry.workers, skip, c, mode, maxSeqLen, caps, r, nodes)
  {
    hide LayerScheduler.Sound, Alive, Scheduled, Contiguous, Tiles, LayerScheduler.DistinctCaps,
      LayerScheduler.Plausible, DistinctParts, LayerScheduler.BottleneckAt, LayerScheduler.Laid, LayerScheduler.Even,
      LayerScheduler.AtMost, LayerScheduler.Ceilings, LayerScheduler.Pruned, LayerScheduler.AutoCounts,
      LayerScheduler.Sum, LayerScheduler.Grantable, LayerScheduler.Decides;
    var all := registry.AllCapabilities();
    var kept := Retain(all, skip);
    caps, nodes := kept, [];
    RetainScheduled(registry.workers, all, skip);
    ScheduledDistinct(registry.workers, kept, skip);
    var input := LayerScheduler.SchedulerInput(c, kept, None, mode, maxSeqLen, 2.0);
    assert LayerScheduler.Candidates(input) == kept;
    if kept == [] {
      NobodyDecided(input);
      return Err(Pipeline), caps, nodes;
    }
    r, nodes := LayerScheduler.MakeSchedule(input);
    if r.Ok? {
      SoundParts(nodes, r.value, LayerScheduler.PerLayer(c, maxSeqLen), c);
      SoundSome(nodes, r.value, LayerScheduler.PerLayer(c, maxSeqLen), c);
      PartsNamed(registry.workers, caps, skip, nodes, r.value.assignments);
    }
  }

  lemma {:induction false} NobodyDecided(input: LayerScheduler.SchedulerInput)
    requires LayerScheduler.Candidates(input) == []
    ensures LayerScheduler.Decides(input, Err(Pipeline), [])
  {
  }

  lemma {:induction false} ScheduledDistinct(workers: Workers, caps: seq<LayerScheduler.Capabilities>,
                                             skip: set<NodeId>)
    requires Scheduled(workers, caps, skip)
    ensures LayerScheduler.DistinctCaps(caps)
  {
  }

  lemma {:induction false} SoundSome(nodes: seq<LayerScheduler.Capabilities>, r: LayerScheduler.Schedule,
                                     perLayer: nat, c: LayerScheduler.ModelConfig)
    requires LayerScheduler.Sound(nodes, r, perLayer, c)
    ensures r.assignments != []
  {
  }

  /** The workers left out are the dead, who do not serve, and the skipped. */
  lemma {:induction false} SkippedOut(was: Workers, parts: Parts, skip: set<NodeId>)
    requires forall id :: Named(parts, |parts|, id) <==> id in was && was[id].status != Dead && id !in skip
    ensures (forall id :: id in was && !Named(parts, |parts|, id) ==> !was[id].Serving()) <==>
            (forall id :: id in skip && id in was ==> !was[id].Serving())
  {
    forall id | id in was
      ensures !Named(parts, |parts|, id) <==> was[id].status == Dead || id in skip
    {
    }
  }

  /** Workers that are known, not dead and not skipped. */
  ghost predicate Living(workers: Workers, order: seq<NodeId>, skip: set<NodeId>) {
    forall id :: id in order ==> id in workers && workers[id].status != Dead && id !in skip
  }

  lemma {:induction false} LivingParts(workers: Workers, parts: Parts, skip: set<NodeId>)
    requires forall i :: 0 <= i < |parts| ==>
      parts[i].nodeId in workers && workers[parts[i].nodeId].status != Dead && parts[i].nodeId !in skip
    ensures Living(workers, PipelineMeaning.NodeIds(LayerScheduler.Layout(parts)), skip)
  {
    var order := PipelineMeaning.NodeIds(LayerScheduler.Layout(parts));
    forall id | id in order
      ensures id in workers && workers[id].status != Dead && id !in skip
    {
      var i :| 0 <= i < |order| && order[i] == id;
      assert id == parts[i].nodeId;
    }
  }

  /** The workers `ids` are what they were. */
  ghost predicate SameWorkers(links: Links, links': Links, ids: set<NodeId>) {
    links'.Keys == links.Keys && forall id :: id in links && id in ids ==> links'[id].worker == links[id].worker
  }

  lemma {:induction false} AbortedElsewhere(links: Links, links': Links, told: set<NodeId>, gone: set<SeqId>,
                                            ids: set<NodeId>)
    requires FreedWorkers(CleanAll(links), CleanAll(links'), told, gone) && told !! ids
    ensures SameWorkers(links, links', ids)
  {
    assert CleanAll(links').Keys == CleanAll(links).Keys;
    forall id | id in links && id in ids
      ensures links'[id].worker == links[id].worker
    {
      assert CleanAll(links')[id].worker == CleanAll(links)[id].worker;
    }
  }

  lemma {:induction false} ToldElsewhere(m: Model, was: Links, told: Links, now: Links, parts: Parts, total: nat,
                                         env: NodeId -> Env, skip: set<NodeId>, before: Links)
    requires ToldUpTo(m, was, told, parts, total, env, |parts|) && PoppedUpTo(told, now, parts, |parts|) &&
             SameWorkers(before, was, skip)
    requires forall i :: 0 <= i < |parts| ==> parts[i].nodeId !in skip
    ensures SameWorkers(before, now, skip)
  {
    hide Handled;
    forall id | id in before && id in skip
      ensures now[id].worker == before[id].worker
    {
      assert !Named(parts, |parts|, id);
    }
  }

  /** Told and read from, no worker holds a sequence that it did not hold before. */
  lemma {:induction false} ToldHold(m: Model, was: Links, told: Links, now: Links, parts: Parts, total: nat,
                                    env: NodeId -> Env)
    requires ToldUpTo(m, was, told, parts, total, env, |parts|) && PoppedUpTo(told, now, parts, |parts|)
    ensures HoldNoMore(was, now, {})
  {
    hide Handled, ValidWorker;
    forall id | id in was
      ensures now[id].worker.hiddenSize == was[id].worker.hiddenSize &&
              now[id].worker.handles.Keys <= was[id].worker.handles.Keys + {}
    {
      if Named(parts, |parts|, id) {
        var i :| 0 <= i < |parts| && parts[i].nodeId == id;
        assert ValidWorker(m, was[id].worker);
        HandledWorker(m, was[id], Reconfigure(parts[i].start, parts[i].end, total), env(id));
      }
    }
  }

  /**
   Nothing of the worker is unread when it answers: its stream was empty, it has freed the aborted
   sequences, if it was told to, without a word, and nothing comes before its answer.
   */
  ghost predicate QuietThrough(l: Link, told: bool, gone: set<SeqId>, free: SeqId -> NodeId -> Env, id: NodeId,
                               env: Env) {
    QuietBefore(l, env) && (told ==> forall s :: s in gone ==> Silent(l.worker, s, free(s)(id)))
  }

  ghost predicate AllQuietThrough(links: Links, parts: Parts, told: set<NodeId>, gone: set<SeqId>,
                                  free: SeqId -> NodeId -> Env, env: NodeId -> Env) {
    forall i :: 0 <= i < |parts| && parts[i].nodeId in links ==>
      var id := parts[i].nodeId;
      QuietThrough(links[id], id in told, gone, free, id, env(id))
  }

  lemma {:induction false} AbortsHeard(was: Links, now: Links, parts: Parts, told: set<NodeId>, gone: set<SeqId>,
                                       free: SeqId -> NodeId -> Env, env: NodeId -> Env, hiddenSize: nat)
    requires FreedSilently(was, now, told, gone, free)
    ensures NothingUnread(now, parts, env) <==> AllQuietThrough(was, parts, told, gone, free, env)
    ensures Reachable(now, parts, hiddenSize) <==> Reachable(was, parts, hiddenSize)
  {
    hide Silent;
    forall i | 0 <= i < |parts| && parts[i].nodeId in was
      ensures var id := parts[i].nodeId;
              (QuietBefore(now[id], env(id)) <==> QuietThrough(was[id], id in told, gone, free, id, env(id))) &&
              now[id].worker.hiddenSize == was[id].worker.hiddenSize
    {
      var id := parts[i].nodeId;
      assert FreedLink(was[id], now[id], if id in told then gone else {}, free, id);
    }
    assert now.Keys == was.Keys;
  }

  /** The workers that are ready. */
  function ReadyIds(workers: Workers): set<NodeId> {
    set id | id in workers && workers[id].status == Ready
  }

  /**
   `forced_rebalance`.  The old pipeline ends up with no sequence.  It succeeds iff the scheduler
   accepts the workers neither dead nor skipped and leaves none of them without a layer.  Then the ranges
   of the new pipeline tile the model and no worker of it is dead or skipped; in EqualSplit mode
   its workers are those neither dead nor skipped, each once, and the registry's pipeline order
   is the new one iff every one of them can be reached and no skipped worker was serving.  The new
   pipeline serves from scratch iff its workers had nothing unread, not even a heartbeat ack, and
   were told of the aborts without a word.  Skipped workers that are not ready are left alone.
   */
  method ForcedRebalance(registry: PeerRegistry, pipeline: DistributedPipeline, cluster: Cluster,
                         c: LayerScheduler.ModelConfig, mode: LayerScheduler.Mode, maxSeqLen: nat, skip: set<NodeId>,
                         free: SeqId -> NodeId -> Env, env: NodeId -> Env, ghost paged: bool)
    returns (r: Result<DistributedPipeline>, order: seq<NodeId>, ghost parts: Parts)
    requires registry.Valid() && cluster.Valid() && (c.numLayers > 0 || mode != LayerScheduler.Manual([]))
    modifies registry, pipeline`allocatedSeqs, cluster`links
    ensures registry.Valid() && cluster.Valid() && pipeline.allocatedSeqs == {} && InOrder(registry.workers, order)
    ensures r.Ok? ==>
      fresh(r.value) && r.value.allocatedSeqs == {} && DistinctParts(parts) &&
      Tiles(LayerScheduler.Layout(parts), c.numLayers) &&
      r.value.order == PipelineMeaning.NodeIds(LayerScheduler.Layout(parts)) &&
      Living(old(registry.workers), r.value.order, skip)
    ensures Offered(old(registry.workers), skip, c, mode, maxSeqLen, r.Ok?)
    ensures r.Ok? && mode.EqualSplit? ==>
      forall id :: Named(parts, |parts|, id) <==>
        id in old(registry.workers) && old(registry.workers)[id].status != Dead && id !in skip
    ensures r.Ok? && mode.EqualSplit? ==>
      (order == r.value.order <==>
        (forall i :: 0 <= i < |parts| ==> parts[i].nodeId in old(cluster.links)) &&
        (forall id :: id in skip && id in old(registry.workers) ==> !old(registry.workers)[id].Serving()))
    ensures r.Ok? && Distinct(pipeline.order) && c.numLayers == |cluster.m.layers| &&
            Reachable(old(cluster.links), parts, c.hiddenSize) ==>
      (r.value.Serving(cluster, LayerScheduler.Layout(parts), paged, map[]) <==>
         AllQuietThrough(old(cluster.links), parts, IdSet(pipeline.order) * ReadyIds(old(registry.workers)),
                         old(pipeline.allocatedSeqs), free, env))
    ensures cluster.links.Keys == old(cluster.links).Keys
    ensures r.Ok? && Distinct(pipeline.order) && c.numLayers == |cluster.m.layers| &&
            Reachable(old(cluster.links), parts, c.hiddenSize) ==>
      PipelineMeaning.Laid(cluster.m, LayerScheduler.Layout(parts), r.value.hiddenSize, CleanAll(cluster.links))
    ensures (forall id :: id in skip && id in old(registry.workers) ==> old(registry.workers)[id].status != Ready) ==>
      SameWorkers(old(cluster.links), cluster.links, skip)
    ensures registry.workers.Keys == old(registry.workers).Keys && HoldNoMore(old(cluster.links), cluster.links, {})
  {
    hide HoldNoMore, Living, Reachable, NothingUnread, PipelineMeaning.Tracks, CleanAll, PipelineMeaning.NodeIds,
      FreedWorkers, DistinctParts, Tiles, Contiguous, AssignedUpTo, ToldUpTo, PoppedUpTo, WellFiled, ValidLinks,
      SameWorkers, FreedSilently, AllQuietThrough, PipelineMeaning.Laid, Decided;
    parts := [];
    var ready := ReadyIds(registry.workers);
    var _ := pipeline.AbortAll(cluster, ready, free);
    ghost var was, links, alone := registry.workers, cluster.links.Keys, ready !! skip;
    if alone {
      AbortedElsewhere(old(cluster.links), cluster.links, IdSet(pipeline.order) * ready, old(pipeline.allocatedSeqs),
                       skip);
    }
    FreedHold(old(cluster.links), cluster.links, IdSet(pipeline.order) * ready, old(pipeline.allocatedSeqs));
    var schedule;
    ghost var caps, nodes;
    schedule, caps, nodes := Schedulable(registry, c, mode, maxSeqLen, skip);
    if schedule.Err? {
      assert Offered(was, skip, c, mode, maxSeqLen, false);
      order := registry.PipelineOrder();
      r := Err(schedule.error);
      return;
    }
    var plan := schedule.value.assignments;
    ghost var before := cluster.links;
    AssignAll(registry, cluster, plan, c.numLayers, env);
    ghost var told := cluster.links;
    AwaitReady(cluster, plan);
    PoppedKeys(told, cluster.links, plan, |plan|);
    ToldHold(cluster.m, before, told, cluster.links, plan, c.numLayers, env);
    HoldOn(old(cluster.links), before, cluster.links, {}, {});
    SameIds(was, registry.workers, plan, links, |plan|);
    if alone {
      ToldElsewhere(cluster.m, before, told, cluster.links, plan, c.numLayers, env, skip, old(cluster.links));
    }
    order := registry.PipelineOrder();
    r := NewPipeline(LayerScheduler.Layout(plan), c.hiddenSize);
    parts := plan;
    assert Decided(was, skip, c, mode, maxSeqLen, caps, schedule, nodes);
    assert Offered(was, skip, c, mode, maxSeqLen, r.Ok?);
    if r.Ok? { LivingParts(was, plan, skip); }
    if Distinct(pipeline.order) {
      AbortsHeard(old(cluster.links), before, plan, IdSet(pipeline.order) * ready, old(pipeline.allocatedSeqs), free,
                  env, c.hiddenSize);
    }
    if r.Ok? && c.numLayers == |cluster.m.layers| && Reachable(before, plan, c.hiddenSize) {
      RebalancedServes(cluster.m, before, told, cluster.links, plan, env, c.hiddenSize, paged);
    }
    if r.Ok? && mode.EqualSplit? {
      Agreement(was, registry.workers, plan, links, c.numLayers, order);
      SkippedOut(was, plan, skip);
    }
  }
}
