/**
 `DistributedPipeline`: the coordinator's side of cache allocation and of forward passes over
 the workers of a pipeline.  A link is a worker and the replies it has sent that have not been
 read; sending a message lets the worker handle it.
 */
module DistributedPipelines {
  import opened Core
  import opened Transformer
  import opened Nodes
  import opened PipelineLayout
  import opened WorkerProtocol

  datatype Link = Link(worker: Worker, outbox: seq<Reply>)

  type Links = map<NodeId, Link>

  // ----- reply streams -----

  /** The replies other than heartbeat acks. */
  ghost function Strip(outbox: seq<Reply>): (s: seq<Reply>)
    ensures forall i :: 0 <= i < |s| ==> !s[i].HeartbeatAck?
  {
    if outbox == [] then []
    else (if outbox[0].HeartbeatAck? then [] else [outbox[0]]) + Strip(outbox[1..])
  }

  function Acks(beats: seq<Beat>): (s: seq<Reply>)
    ensures |s| == |beats| && forall i :: 0 <= i < |s| ==> s[i] == HeartbeatAck(beats[i])
  {
    seq(|beats|, i requires 0 <= i < |beats| => HeartbeatAck(beats[i]))
  }

  /** What a worker that is going to leave says before it handles the next message. */
  function Intent(leaves: bool): seq<Reply> {
    if leaves then [LeaveIntent] else []
  }

  lemma {:induction false} StripAppend(a: seq<Reply>, b: seq<Reply>)
    ensures Strip(a + b) == Strip(a) + Strip(b)
  {
    if a == [] {
      assert a + b == b;
    } else {
      StripAppend(a[1..], b);
      assert (a + b)[1..] == a[1..] + b && (a + b)[0] == a[0];
      var first := if a[0].HeartbeatAck? then [] else [a[0]];
      Associative(first, Strip(a[1..]), Strip(b));
    }
  }

  lemma {:induction false} StripAcks(beats: seq<Beat>)
    ensures Strip(Acks(beats)) == []
  {
    if beats != [] {
      StripAcks(beats[1..]);
      assert Acks(beats)[1..] == Acks(beats[1..]);
    }
  }

  /** Heartbeat acks inserted anywhere are not seen. */
  lemma {:induction false} AcksUnseen(a: seq<Reply>, beats: seq<Beat>, b: seq<Reply>)
    ensures Strip(a + Acks(beats) + b) == Strip(a + b)
  {
    StripAppend(a + Acks(beats), b);
    StripAppend(a, Acks(beats));
    StripAppend(a, b);
    StripAcks(beats);
  }

  /** What is left of a stream when its first reply has been read: the acks before it go with it. */
  function Skipped(outbox: seq<Reply>): seq<Reply> {
    if outbox == [] then [] else if outbox[0].HeartbeatAck? then Skipped(outbox[1..]) else outbox[1..]
  }

  /** A link without its heartbeat acks. */
  ghost function Clean(l: Link): Link {
    Link(l.worker, Strip(l.outbox))
  }

  ghost function CleanAll(links: Links): (c: Links)
    ensures c.Keys == links.Keys
  {
    map id | id in links :: Clean(links[id])
  }

  ghost predicate ValidLinks(m: Model, links: Links) {
    forall id :: id in links ==> ValidWorker(m, links[id].worker)
  }

  /** The link after a message has been handled, heartbeats apart. */
  ghost function Delivered(m: Model, l: Link, req: Request, env: Env): (l': Link)
    requires ValidWorker(m, l.worker)
    ensures ValidWorker(m, l'.worker)
  {
    ServeKeeps(m, l.worker, req, env);
    var served := Serve(m, l.worker, req, env);
    Link(served.worker, l.outbox + Intent(env.leaves) + Strip(served.replies))
  }

  /** The link after a message has been handled, with the heartbeat acks around what the worker says. */
  function Handled(m: Model, l: Link, req: Request, env: Env): Link
    requires ValidWorker(m, l.worker)
  {
    var served := Serve(m, l.worker, req, env);
    Link(served.worker, l.outbox + Acks(env.acksBefore) + (Intent(env.leaves) + served.replies) + Acks(env.acksAfter))
  }

  lemma {:induction false} HandledIsDelivered(m: Model, l: Link, req: Request, env: Env)
    requires ValidWorker(m, l.worker)
    ensures ValidWorker(m, Handled(m, l, req, env).worker)
    ensures Clean(Handled(m, l, req, env)) == Delivered(m, Clean(l), req, env)
  {
    hide Serve, ValidWorker;
    ServeKeeps(m, l.worker, req, env);
    var replies := Serve(m, l.worker, req, env).replies;
    SentStrip(l.outbox, env.acksBefore, Intent(env.leaves) + replies, env.acksAfter);
    StripAppend(Intent(env.leaves), replies);
    StripIntent(env.leaves);
    var said := Intent(env.leaves) + Strip(replies);
    assert Strip(l.outbox) + said == Strip(l.outbox) + Intent(env.leaves) + Strip(replies);
  }

  lemma {:induction false} StripIntent(leaves: bool)
    ensures Strip(Intent(leaves)) == Intent(leaves)
  {
    if leaves { OneReply(LeaveIntent); }
  }

  lemma {:induction false} SentStrip(outbox: seq<Reply>, before: seq<Beat>, replies: seq<Reply>, after: seq<Beat>)
    ensures Strip(outbox + Acks(before) + replies + Acks(after)) == Strip(outbox) + Strip(replies)
  {
    StripAppend(outbox + Acks(before) + replies, Acks(after));
    StripAppend(outbox + Acks(before), replies);
    StripAppend(outbox, Acks(before));
    StripAcks(before);
    StripAcks(after);
  }

  lemma {:induction false} CleanUpdate(links: Links, id: NodeId, l: Link)
    ensures CleanAll(links[id := l]) == CleanAll(links)[id := Clean(l)]
  {
  }

  /** No worker holds a sequence that it did not hold before, but for `more`. */
  ghost predicate HoldNoMore(was: Links, now: Links, more: set<SeqId>) {
    now.Keys == was.Keys &&
    forall id :: id in was ==>
      now[id].worker.hiddenSize == was[id].worker.hiddenSize &&
      now[id].worker.handles.Keys <= was[id].worker.handles.Keys + more
  }

  lemma {:induction false} HoldOn(was: Links, mid: Links, now: Links, some: set<SeqId>, more: set<SeqId>)
    requires HoldNoMore(was, mid, some) && HoldNoMore(mid, now, more) && more <= some
    ensures HoldNoMore(was, now, some)
  {
  }

  lemma {:induction false} HoldSame(links: Links, more: set<SeqId>)
    ensures HoldNoMore(links, links, more)
  {
  }

  lemma {:induction false} HoldClean(was: Links, now: Links, more: set<SeqId>)
    ensures HoldNoMore(CleanAll(was), CleanAll(now), more) <==> HoldNoMore(was, now, more)
  {
    if HoldNoMore(CleanAll(was), CleanAll(now), more) {
      assert CleanAll(now).Keys == CleanAll(was).Keys;
      forall id | id in was
        ensures now[id].worker.hiddenSize == was[id].worker.hiddenSize &&
                now[id].worker.handles.Keys <= was[id].worker.handles.Keys + more
      {
        assert CleanAll(now)[id].worker == now[id].worker && CleanAll(was)[id].worker == was[id].worker;
      }
    }
  }

  lemma {:induction false} HandledWorker(m: Model, l: Link, req: Request, env: Env)
    requires ValidWorker(m, l.worker)
    ensures var w := Handled(m, l, req, env).worker;
            w.hiddenSize == l.worker.hiddenSize && w.handles.Keys <= l.worker.handles.Keys + Requested(req)
  {
    hide Serve;
    ServeHolds(m, l.worker, req, env);
  }

  /** A message adds what it asks for. */
  lemma {:induction false} HandledHolds(m: Model, links: Links, id: NodeId, req: Request, env: Env)
    requires id in links && ValidWorker(m, links[id].worker)
    ensures HoldNoMore(links, links[id := Handled(m, links[id], req, env)], Requested(req))
  {
    hide Handled;
    HandledWorker(m, links[id], req, env);
  }

  /** The workers, as the registry's connections reach them. */
  class Cluster {
    const m: Model
    var links: Links

    ghost predicate Valid()
      reads this
    {
      ValidLinks(m, links)
    }

    /** Send a message to a worker.  Heartbeats of other tasks may be answered around it. */
    method Send(id: NodeId, req: Request, env: Env) returns (r: Result<()>)
      requires Valid()
      modifies this`links
      ensures Valid() && links.Keys == old(links).Keys
      ensures r.Ok? <==> id in old(links)
      ensures r.Err? ==> links == old(links) && r.error == Pipeline
      ensures r.Ok? ==>
        links == old(links)[id := Handled(m, old(links)[id], req, env)] &&
        CleanAll(links) == CleanAll(old(links))[id := Delivered(m, Clean(old(links)[id]), req, env)]
      ensures HoldNoMore(old(links), links, Requested(req))
    {
      hide Handled, Delivered, ValidWorker, Strip, CleanAll;
      if id !in links { return Err(Pipeline); }
      HandledHolds(m, links, id, req, env);
      HandledIsDelivered(m, links[id], req, env);
      CleanUpdate(links, id, Handled(m, links[id], req, env));
      links := links[id := Handled(m, links[id], req, env)];
      r := Ok(());
    }

    /** `recv_skipping_heartbeat_acks`: the next reply of a worker that is not a heartbeat ack. */
    method Recv(id: NodeId) returns (r: Result<Reply>)
      requires Valid() && id in links
      modifies this`links
      ensures Valid() && links.Keys == old(links).Keys
      ensures var clean := Strip(old(links)[id].outbox);
              if clean == [] then r == Err(Protocol) && CleanAll(links) == CleanAll(old(links))
              else r == Ok(clean[0]) &&
                   CleanAll(links) == CleanAll(old(links))[id := Link(old(links)[id].worker, clean[1..])]
      ensures links == old(links)[id := Link(old(links)[id].worker, Skipped(old(links)[id].outbox))]
      ensures HoldNoMore(old(links), links, {})
    {
      hide ValidWorker, CleanAll;
      var rest := links[id].outbox;
      ghost var was := rest;
      r := Err(Protocol);
      while rest != [] && r.Err?
        invariant r.Err? ==> r == Err(Protocol) && Strip(rest) == Strip(was)
        invariant r.Ok? ==> Strip(was) != [] && r.value == Strip(was)[0] && Strip(rest) == Strip(was)[1..]
        invariant Skipped(was) == if r.Ok? then rest else Skipped(rest)
        decreases |rest|
      {
        if !rest[0].HeartbeatAck? { r := Ok(rest[0]); }
        rest := rest[1..];
      }
      var l' := Link(links[id].worker, rest);
      CleanUpdate(links, id, l');
      CleanAt(links, id);
      links := links[id := l'];
    }
  }

  lemma {:induction false} CleanAt(links: Links, id: NodeId)
    requires id in links
    ensures CleanAll(links)[id := Clean(links[id])] == CleanAll(links)
  {
  }

  // ----- stage after stage -----

  /** A pass on one sequence and the contiguous caches, or on several and the paged caches. */
  datatype Call = Single(seqId: SeqId, positions: seq<nat>) | Batch(metas: seq<SequenceMeta>) {
    function Count(): nat { if Single? then 1 else |metas| }

    function SeqAt(j: nat): SeqId
      requires j < Count()
    {
      if Single? then seqId else metas[j].seqId
    }

    function PosAt(j: nat): seq<nat>
      requires j < Count()
    {
      if Single? then positions else metas[j].positions
    }

    function Caches(w: Worker): map<SeqId, seq<KV>> { if Single? then w.handles else w.pagedHandles }

    function With(w: Worker, caches: map<SeqId, seq<KV>>): Worker {
      if Single? then w.(handles := caches) else w.(pagedHandles := caches)
    }

    ghost predicate Has(s: SeqId) { exists j :: 0 <= j < Count() && SeqAt(j) == s }
  }

  function RequestOf(call: Call, input: WireInput): Request {
    match call
    case Single(s, ps) => Forward(s, ps, input)
    case Batch(metas) => BatchedForward(metas, input)
  }

  datatype Verdict = Fail(error: Error) | Final(logits: Row) | Next(input: WireInput)

  /** What the coordinator makes of a stage's reply. */
  function Judge(reply: Reply, call: Call, isLast: bool, hiddenSize: nat): Verdict {
    match reply
    case ErrorReply => Fail(Pipeline)
    case LogitsReply(logits, batched) =>
      if call.Single? && batched then Fail(Protocol) else if !isLast then Fail(Pipeline) else Final(logits)
    case RowsReply(rows, lastDim, batched) =>
      if call.Single? && batched then Fail(Protocol)
      else if isLast || (call.Single? && lastDim != hiddenSize) then Fail(Pipeline)
      else Next(WireRows(rows))
    case _ => Fail(Protocol)
  }

  /**
   The pass goes on with the rows of a stage before the last, and ends with the logits of the last.
   The rows of a single pass must have the model's width, and its replies must not be those of a
   batch.  An error of a stage and a reply of the wrong kind for its place fail the pass.
   */
  lemma {:induction false} JudgeIff(reply: Reply, call: Call, isLast: bool, hiddenSize: nat)
    ensures var verdict, single := Judge(reply, call, isLast, hiddenSize), call.Single?;
            (verdict.Next? <==>
               !isLast && reply.RowsReply? && (single ==> !reply.batched && reply.lastDim == hiddenSize)) &&
            (verdict.Final? <==> isLast && reply.LogitsReply? && (single ==> !reply.batched)) &&
            (verdict.Next? ==> verdict.input == WireRows(reply.rows)) &&
            (verdict.Final? ==> verdict.logits == reply.logits) &&
            (verdict == Fail(Protocol) <==>
               reply.CacheAllocAck? || reply.WorkerReady? || reply.HeartbeatAck? || reply.LeaveIntent? ||
               (single && ((reply.RowsReply? && reply.batched) || (reply.LogitsReply? && reply.batched)))) &&
            (verdict.Fail? ==> verdict.error in {Protocol, Pipeline})
  {
  }

  datatype StageResult = StageResult(result: Result<Row>, links: Links)

  /** The stages from i on, over links without heartbeat acks. */
  ghost function Stages(m: Model, order: seq<NodeId>, hiddenSize: nat, call: Call, input: WireInput, envs: seq<Env>,
                        i: nat, links: Links): (r: StageResult)
    requires i <= |order| <= |envs| && ValidLinks(m, links)
    ensures ValidLinks(m, r.links)
    decreases |order| - i
  {
    if i == |order| || order[i] !in links then StageResult(Err(Pipeline), links)
    else
      var l := Delivered(m, links[order[i]], RequestOf(call, input), envs[i]);
      if l.outbox == [] then StageResult(Err(Protocol), links[order[i] := l])
      else
        var links' := links[order[i] := Link(l.worker, l.outbox[1..])];
        match Judge(l.outbox[0], call, i == |order| - 1, hiddenSize)
        case Fail(e) => StageResult(Err(e), links')
        case Final(logits) => StageResult(Ok(logits), links')
        case Next(next) => Stages(m, order, hiddenSize, call, next, envs, i + 1, links')
  }

  lemma {:induction false} CleanValid(m: Model, links: Links)
    requires ValidLinks(m, links)
    ensures ValidLinks(m, CleanAll(links))
  {
  }

  lemma {:induction false} CleanOne(links: Links, id: NodeId)
    requires id in links
    ensures CleanAll(links)[id] == Clean(links[id])
  {
  }

  lemma {:induction false} TwiceUpdated(links: Links, id: NodeId, a: Link, b: Link)
    ensures links[id := a][id := b] == links[id := b]
  {
  }

  /** One message and its reply. */
  method Exchange(cluster: Cluster, id: NodeId, req: Request, env: Env) returns (r: Result<Reply>)
    requires cluster.Valid()
    modifies cluster`links
    ensures cluster.Valid() && cluster.links.Keys == old(cluster.links).Keys
    ensures id !in old(cluster.links) ==> r == Err(Pipeline) && CleanAll(cluster.links) == CleanAll(old(cluster.links))
    ensures id in old(cluster.links) ==>
      var was := CleanAll(old(cluster.links));
      ValidWorker(cluster.m, was[id].worker) &&
      var l := Delivered(cluster.m, was[id], req, env);
      if l.outbox == [] then r == Err(Protocol) && CleanAll(cluster.links) == was[id := l]
      else r == Ok(l.outbox[0]) && CleanAll(cluster.links) == was[id := Link(l.worker, l.outbox[1..])]
    ensures HoldNoMore(old(cluster.links), cluster.links, Requested(req))
  {
    hide Serve, ValidWorker, Strip, CleanAll, Delivered, HoldNoMore;
    ghost var was := CleanAll(cluster.links);
    if id in cluster.links { CleanOne(cluster.links, id); }
    var sent := cluster.Send(id, req, env);
    if sent.Err? { return Err(sent.error); }
    CleanOne(cluster.links, id);
    ghost var mid, links := cluster.links[id], cluster.links;
    r := cluster.Recv(id);
    HoldOn(old(cluster.links), links, cluster.links, Requested(req), {});
    if r.Ok? { TwiceUpdated(was, id, Clean(mid), Link(mid.worker, Strip(mid.outbox)[1..])); }
  }

  /** The loop of `forward` and of `batched_forward`: what it returns does not depend on heartbeat acks. */
  method RunStages(cluster: Cluster, order: seq<NodeId>, hiddenSize: nat, call: Call, ids: seq<nat>, envs: seq<Env>)
    returns (r: Result<Row>)
    requires cluster.Valid() && |order| <= |envs|
    modifies cluster`links
    ensures cluster.Valid() && cluster.links.Keys == old(cluster.links).Keys
    ensures ValidLinks(cluster.m, CleanAll(old(cluster.links)))
    ensures StageResult(r, CleanAll(cluster.links))
         == Stages(cluster.m, order, hiddenSize, call, WireIds(ids), envs, 0, CleanAll(old(cluster.links)))
    ensures HoldNoMore(old(cluster.links), cluster.links, {})
  {
    hide ValidWorker, CleanAll, Delivered, Judge, RequestOf, HoldNoMore;
    var m := cluster.m;
    HoldSame(cluster.links, {});
    CleanValid(m, cluster.links);
    ghost var was := CleanAll(cluster.links);
    var input := WireIds(ids);
    for i := 0 to |order|
      invariant cluster.Valid() && cluster.links.Keys == old(cluster.links).Keys
      invariant ValidLinks(m, CleanAll(cluster.links))
      invariant Stages(m, order, hiddenSize, call, WireIds(ids), envs, 0, was)
             == Stages(m, order, hiddenSize, call, input, envs, i, CleanAll(cluster.links))
      invariant HoldNoMore(old(cluster.links), cluster.links, {})
    {
      ghost var before := cluster.links;
      PassAddsNothing(call, input);
      var reply := Exchange(cluster, order[i], RequestOf(call, input), envs[i]);
      HoldOn(old(cluster.links), before, cluster.links, {}, {});
      CleanValid(m, cluster.links);
      if reply.Err? { return Err(reply.error); }
      match Judge(reply.value, call, i == |order| - 1, hiddenSize)
      case Fail(e) => return Err(e);
      case Final(logits) => return Ok(logits);
      case Next(next) => input := next;
    }
    r := Err(Pipeline);
  }

  lemma {:induction false} PassAddsNothing(call: Call, input: WireInput)
    ensures Requested(RequestOf(call, input)) == {}
  {
  }

  /** What the first reply of stage i leads to. */
  lemma {:induction false} StagesNext(m: Model, order: seq<NodeId>, hiddenSize: nat, call: Call, input: WireInput,
                                      envs: seq<Env>, i: nat, links: Links, l: Link)
    requires i < |order| <= |envs| && ValidLinks(m, links) && order[i] in links
    requires l == Delivered(m, links[order[i]], RequestOf(call, input), envs[i]) && |l.outbox| == 1
    ensures var links' := links[order[i] := Link(l.worker, [])];
            var out := Stages(m, order, hiddenSize, call, input, envs, i, links);
            match Judge(l.outbox[0], call, i == |order| - 1, hiddenSize)
            case Fail(e) => out == StageResult(Err(e), links')
            case Final(logits) => out == StageResult(Ok(logits), links')
            case Next(next) =>
              ValidLinks(m, links') && out == Stages(m, order, hiddenSize, call, next, envs, i + 1, links')
  {
    hide Judge;
    assert l.outbox[1..] == [];
  }

  /** A stage that announces its leave: the announcement is read for the reply, which stays unread. */
  lemma {:induction false} StagesLeave(m: Model, order: seq<NodeId>, hiddenSize: nat, call: Call, input: WireInput,
                                       envs: seq<Env>, i: nat, links: Links)
    requires i < |order| <= |envs| && ValidLinks(m, links) && order[i] in links && links[order[i]].outbox == [] &&
             envs[i].leaves
    ensures ValidWorker(m, links[order[i]].worker)
    ensures var served := Serve(m, links[order[i]].worker, RequestOf(call, input), envs[i]);
            Stages(m, order, hiddenSize, call, input, envs, i, links) ==
            StageResult(Err(Protocol), links[order[i] := Link(served.worker, Strip(served.replies))])
  {
    hide Serve, RequestOf;
    assert ValidWorker(m, links[order[i]].worker);
    var l := Delivered(m, links[order[i]], RequestOf(call, input), envs[i]);
    var served := Serve(m, links[order[i]].worker, RequestOf(call, input), envs[i]);
    assert l.outbox == [LeaveIntent] + Strip(served.replies);
    assert l.outbox[0] == LeaveIntent && l.outbox[1..] == Strip(served.replies);
  }

  /** The stages from i on reach one that announces its leave before its reply. */
  ghost predicate MetLeave(m: Model, order: seq<NodeId>, hiddenSize: nat, call: Call, input: WireInput, envs: seq<Env>,
                           i: nat, links: Links)
    requires i <= |order| <= |envs| && ValidLinks(m, links)
    decreases |order| - i
  {
    i < |order| && order[i] in links &&
    var l := Delivered(m, links[order[i]], RequestOf(call, input), envs[i]);
    if envs[i].leaves then |l.outbox| > 1
    else
      l.outbox != [] &&
      var links' := links[order[i] := Link(l.worker, l.outbox[1..])];
      match Judge(l.outbox[0], call, i == |order| - 1, hiddenSize)
      case Next(next) => MetLeave(m, order, hiddenSize, call, next, envs, i + 1, links')
      case _ => false
  }

  lemma {:induction false} MetNext(m: Model, order: seq<NodeId>, hiddenSize: nat, call: Call, input: WireInput,
                                   envs: seq<Env>, i: nat, links: Links, l: Link)
    requires i < |order| <= |envs| && ValidLinks(m, links) && order[i] in links && !envs[i].leaves
    requires l == Delivered(m, links[order[i]], RequestOf(call, input), envs[i]) && |l.outbox| == 1
    ensures var links' := links[order[i] := Link(l.worker, [])];
            var met := MetLeave(m, order, hiddenSize, call, input, envs, i, links);
            match Judge(l.outbox[0], call, i == |order| - 1, hiddenSize)
            case Next(next) =>
              ValidLinks(m, links') && met == MetLeave(m, order, hiddenSize, call, next, envs, i + 1, links')
            case _ => !met
  {
    hide Judge;
    assert l.outbox[1..] == [];
  }

  lemma {:induction false} OneReply(r: Reply)
    requires !r.HeartbeatAck?
    ensures Strip([r]) == [r]
  {
    assert Strip([]) == [];
  }
}
