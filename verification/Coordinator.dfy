/**
 The coordinator's pipeline object: construction from assignments, cache allocation and
 release on all workers, and forward passes.
 */
module Coordination {
  import opened Core
  import opened Transformer
  import opened Nodes
  import opened PipelineLayout
  import opened WorkerProtocol
  import opened BatchWire
  import opened DistributedPipelines
  import opened PipelineMeaning
  import Sorting

  // ----- one message to everybody -----

  /** The links after the nodes `ids` have handled a message. */
  ghost function DeliverTo(m: Model, links: Links, ids: set<NodeId>, req: Request, env: NodeId -> Env): (r: Links)
    requires ValidLinks(m, links)
    ensures r.Keys == links.Keys && ValidLinks(m, r)
  {
    map id | id in links :: if id in ids then Delivered(m, links[id], req, env(id)) else links[id]
  }

  lemma {:induction false} DeliverNext(m: Model, links: Links, ids: set<NodeId>, req: Request, env: NodeId -> Env,
                                       id: NodeId)
    requires ValidLinks(m, links) && id in links && id !in ids
    ensures var r := DeliverTo(m, links, ids, req, env);
            r[id] == links[id] && r[id := Delivered(m, r[id], req, env(id))] == DeliverTo(m, links, ids + {id}, req,
              env)
  {
    hide Delivered, ValidWorker;
  }

  lemma {:induction false} DeliverNone(m: Model, links: Links, req: Request, env: NodeId -> Env)
    requires ValidLinks(m, links)
    ensures DeliverTo(m, links, {}, req, env) == links
  {
    hide Delivered, ValidWorker;
  }

  function IdSet(order: seq<NodeId>): set<NodeId> {
    set id | id in order
  }

  lemma {:induction false} DeliverMissing(m: Model, links: Links, ids: set<NodeId>, req: Request, env: NodeId -> Env,
                                          id: NodeId)
    requires ValidLinks(m, links) && id !in links
    ensures DeliverTo(m, links, ids + {id}, req, env) == DeliverTo(m, links, ids, req, env)
  {
    hide Delivered, ValidWorker;
  }

  /** How many of the ids, from the first on, are good. */
  ghost function Lead(ids: seq<NodeId>, good: set<NodeId>): (k: nat)
    ensures k <= |ids| && (forall i :: 0 <= i < k ==> ids[i] in good) && (k < |ids| ==> ids[k] !in good)
  {
    if ids == [] || ids[0] !in good then 0 else 1 + Lead(ids[1..], good)
  }

  /** The nodes that a message to the whole order reaches: those before the first that is not registered. */
  ghost function Reached(order: seq<NodeId>, known: set<NodeId>): set<NodeId> {
    IdSet(order[..Lead(order, known)])
  }

  /** The next node of the order: registered, or the one at which a message to all of them stops. */
  lemma {:induction false} NextNode(order: seq<NodeId>, known: set<NodeId>, n: nat)
    requires n < |order| && IdSet(order[..n]) <= known
    ensures IdSet(order[..n + 1]) == IdSet(order[..n]) + {order[n]} &&
            (Distinct(order) ==> order[n] !in IdSet(order[..n]))
    ensures order[n] !in known ==>
      Reached(order, known) == IdSet(order[..n]) && !(IdSet(order) <= known)
  {
    assert order[..n + 1] == order[..n] + [order[n]];
    if order[n] !in known {
      assert order[n] in IdSet(order);
      forall i | 0 <= i < n
        ensures order[i] in known
      {
        assert order[..n][i] in IdSet(order[..n]);
      }
      assert Lead(order, known) == n;
    }
  }

  /** Send a message to every node of the order; stops at the first that is not registered. */
  method SendAll(cluster: Cluster, order: seq<NodeId>, req: Request, env: NodeId -> Env) returns (r: Result<()>)
    requires cluster.Valid()
    modifies cluster`links
    ensures cluster.Valid() && cluster.links.Keys == old(cluster.links).Keys
    ensures ValidLinks(cluster.m, CleanAll(old(cluster.links)))
    ensures r.Ok? <==> IdSet(order) <= old(cluster.links).Keys
    ensures r.Ok? ==> Reached(order, old(cluster.links).Keys) == IdSet(order)
    ensures Distinct(order) ==>
      CleanAll(cluster.links) ==
        DeliverTo(cluster.m, CleanAll(old(cluster.links)), Reached(order, old(cluster.links).Keys), req, env)
    ensures Distinct(order) && r.Ok? ==>
      cluster.links == HandleOn(cluster.m, old(cluster.links), IdSet(order), req, env)
    ensures r.Err? ==> r.error == Pipeline
    ensures HoldNoMore(old(cluster.links), cluster.links, Requested(req))
  {
    hide CleanAll, Delivered, ValidLinks, DeliverTo, Handled, HandleOn, HoldNoMore, Distinct, Reached, Requested;
    ghost var was := CleanAll(cluster.links);
    CleanValid(cluster.m, cluster.links);
    DeliverNone(cluster.m, was, req, env);
    HandleNone(cluster.m, cluster.links, req, env);
    HoldSame(cluster.links, Requested(req));
    assert IdSet(order[..0]) == {};
    for n := 0 to |order|
      invariant cluster.Valid() && cluster.links.Keys == old(cluster.links).Keys
      invariant IdSet(order[..n]) <= was.Keys
      invariant Distinct(order) ==>
        CleanAll(cluster.links) == DeliverTo(cluster.m, was, IdSet(order[..n]), req, env) &&
        cluster.links == HandleOn(cluster.m, old(cluster.links), IdSet(order[..n]), req, env)
      invariant HoldNoMore(old(cluster.links), cluster.links, Requested(req))
    {
      var id := order[n];
      ghost var before := cluster.links;
      NextNode(order, was.Keys, n);
      if id in cluster.links && Distinct(order) {
        CleanOne(cluster.links, id);
        DeliverNext(cluster.m, was, IdSet(order[..n]), req, env, id);
        HandleNext(cluster.m, old(cluster.links), cluster.links, IdSet(order[..n]), req, env, id);
      }
      r := cluster.Send(id, req, env(id));
      HoldOn(old(cluster.links), before, cluster.links, Requested(req), Requested(req));
      if r.Err? { return; }
    }
    AllReachedIf(order, was.Keys);
    assert order[..|order|] == order;
    r := Ok(());
  }

  // ----- collecting the acks -----

  ghost function Rest(outbox: seq<Reply>): seq<Reply> {
    if outbox == [] then [] else outbox[1..]
  }

  /** One message of each of the nodes `ids` has been read, where there was one, and nothing else has changed. */
  ghost predicate ReadOn(links: Links, now: Links, ids: set<NodeId>) {
    now.Keys == links.Keys &&
    forall id :: id in links ==>
      now[id] == if id in ids then Link(links[id].worker, Rest(links[id].outbox)) else links[id]
  }

  /** Replies may have been read, but no worker has changed. */
  ghost predicate SameWorkers(links: Links, links': Links) {
    links'.Keys == links.Keys && forall id :: id in links ==> links'[id].worker == links[id].worker
  }

  lemma {:induction false} ReadNothing(links: Links)
    ensures ReadOn(links, links, {}) && SameWorkers(links, links)
  {
  }

  /** Reading one message of a node, or finding that it has none. */
  lemma {:induction false} ReadNext(links: Links, now: Links, ids: set<NodeId>, id: NodeId)
    requires ReadOn(links, now, ids) && id in links && id !in ids
    ensures now[id] == links[id]
    ensures links[id].outbox == [] ==> ReadOn(links, now, ids + {id})
    ensures links[id].outbox != [] ==> ReadOn(links, now[id := Link(now[id].worker, now[id].outbox[1..])], ids + {id})
  {
  }

  lemma {:induction false} ReadSameWorkers(links: Links, now: Links, id: NodeId, rest: seq<Reply>)
    requires SameWorkers(links, now) && id in now
    ensures SameWorkers(links, now[id := Link(now[id].worker, rest)])
  {
  }

  /** The nodes whose next unread reply is an ack. */
  ghost function Acked(links: Links): set<NodeId> {
    set id | id in links && links[id].outbox != [] && links[id].outbox[0] == CacheAllocAck
  }

  /**
   The nodes whose reply has been read when the first k arrivals were acks and the next, if any,
   was not: those, that one, and the ones read by tasks that were then dropped.
   */
  ghost function ReadIds(arrival: seq<NodeId>, k: nat, dropped: set<NodeId>): set<NodeId>
    requires k <= |arrival|
  {
    if k == |arrival| then IdSet(arrival) else IdSet(arrival[..k + 1]) + IdSet(arrival[k + 1..]) * dropped
  }

  /** The tasks still waiting when an allocation fails are dropped; some may have read their reply already. */
  method DropTasks(cluster: Cluster, rest: seq<NodeId>, dropped: set<NodeId>, ghost was: Links,
                   ghost ids: set<NodeId>) returns (all: bool)
    requires cluster.Valid() && IdSet(rest) <= cluster.links.Keys && SameWorkers(was, CleanAll(cluster.links))
    modifies cluster`links
    ensures cluster.Valid() && cluster.links.Keys == old(cluster.links).Keys &&
            SameWorkers(was, CleanAll(cluster.links))
    ensures all <==> IdSet(rest) <= dropped
    ensures old(ReadOn(was, CleanAll(cluster.links), ids)) && Distinct(rest) && ids !! IdSet(rest) ==>
      ReadOn(was, CleanAll(cluster.links), ids + IdSet(rest) * dropped)
  {
    hide CleanAll, Strip, ValidLinks, ReadOn, SameWorkers;
    all := true;
    ghost var good := ReadOn(was, CleanAll(cluster.links), ids) && Distinct(rest) && ids !! IdSet(rest);
    assert IdSet(rest[..0]) * dropped == {} && ids + {} == ids;
    for n := 0 to |rest|
      invariant cluster.Valid() && cluster.links.Keys == old(cluster.links).Keys &&
                SameWorkers(was, CleanAll(cluster.links))
      invariant all <==> IdSet(rest[..n]) <= dropped
      invariant good ==> ReadOn(was, CleanAll(cluster.links), ids + IdSet(rest[..n]) * dropped)
    {
      var id := rest[n];
      assert IdSet(rest[..n + 1]) == IdSet(rest[..n]) + {id};
      if id in dropped {
        ghost var now := CleanAll(cluster.links);
        CleanOne(cluster.links, id);
        ReadSameWorkers(was, now, id, if now[id].outbox == [] then [] else now[id].outbox[1..]);
        if good {
          assert id !in IdSet(rest[..n]);
          SameKeys(was, now);
          ReadNext(was, now, ids + IdSet(rest[..n]) * dropped, id);
          assert ids + IdSet(rest[..n + 1]) * dropped == ids + IdSet(rest[..n]) * dropped + {id};
        }
        var _ := cluster.Recv(id);
      } else {
        all := false;
        assert IdSet(rest[..n + 1]) * dropped == IdSet(rest[..n]) * dropped;
      }
    }
    assert rest[..|rest|] == rest;
  }

  lemma {:induction false} SameKeys(links: Links, now: Links)
    requires SameWorkers(links, now)
    ensures now.Keys == links.Keys
  {
  }

  /** The next reply of a node, as an answer to an allocation. */
  method ReadAck(cluster: Cluster, id: NodeId, ghost was: Links, ghost ids: set<NodeId>) returns (r: Result<()>)
    requires cluster.Valid() && id in cluster.links && SameWorkers(was, CleanAll(cluster.links))
    modifies cluster`links
    ensures cluster.Valid() && cluster.links.Keys == old(cluster.links).Keys &&
            SameWorkers(was, CleanAll(cluster.links))
    ensures var said := Strip(old(cluster.links)[id].outbox);
            r == if said == [] then Err(Protocol)
                 else if said[0].ErrorReply? then Err(Pipeline)
                 else if said[0] != CacheAllocAck then Err(Protocol)
                 else Ok(())
    ensures old(ReadOn(was, CleanAll(cluster.links), ids)) && id !in ids && id in was ==>
      ReadOn(was, CleanAll(cluster.links), ids + {id}) && (r.Ok? <==> id in Acked(was))
  {
    hide CleanAll, Strip, ValidLinks, ReadOn, SameWorkers;
    ghost var now := CleanAll(cluster.links);
    SameKeys(was, now);
    if ReadOn(was, now, ids) && id !in ids { ReadNext(was, now, ids, id); }
    CleanOne(cluster.links, id);
    ReadSameWorkers(was, now, id, if now[id].outbox == [] then [] else now[id].outbox[1..]);
    var reply := cluster.Recv(id);
    r := if reply.Err? then Err(reply.error)
         else if reply.value.ErrorReply? then Err(Pipeline)
         else if reply.value != CacheAllocAck then Err(Protocol)
         else Ok(());
  }

  /** What collecting the acks comes to. */
  ghost predicate AcksRead(was: Links, now: Links, arrival: seq<NodeId>, dropped: set<NodeId>, ok: bool,
                           succeeded: seq<NodeId>, all: bool) {
    var k := Lead(arrival, Acked(was));
    succeeded == arrival[..k] && (ok <==> k == |arrival|) &&
    (all <==> IdSet(arrival) <= ReadIds(arrival, k, dropped)) &&
    ReadOn(was, now, ReadIds(arrival, k, dropped))
  }

  /**
   Phase two of `try_alloc_all`: the next reply of each worker, in the order in which they arrive.
   It succeeds iff all are acks; the acks read before the first other reply are returned.  `all`
   says that something was read from every worker.
   */
  method CollectAcks(cluster: Cluster, arrival: seq<NodeId>, dropped: set<NodeId>)
    returns (r: Result<()>, succeeded: seq<NodeId>, all: bool)
    requires cluster.Valid() && IdSet(arrival) <= cluster.links.Keys
    modifies cluster`links
    ensures cluster.Valid() && cluster.links.Keys == old(cluster.links).Keys
    ensures SameWorkers(CleanAll(old(cluster.links)), CleanAll(cluster.links))
    ensures |succeeded| <= |arrival| && succeeded == arrival[..|succeeded|]
    ensures r.Err? ==> r.error == Pipeline || r.error == Protocol
    ensures Distinct(arrival) ==>
      AcksRead(CleanAll(old(cluster.links)), CleanAll(cluster.links), arrival, dropped, r.Ok?, succeeded, all)
  {
    hide CleanAll, Strip, ValidLinks, ReadOn, SameWorkers, AcksRead, Acked;
    ghost var was := CleanAll(cluster.links);
    ghost var single := Distinct(arrival);
    succeeded, all := [], true;
    ReadNothing(was);
    assert IdSet(arrival[..0]) == {};
    for n := 0 to |arrival|
      invariant cluster.Valid() && cluster.links.Keys == old(cluster.links).Keys && all
      invariant succeeded == arrival[..n] && SameWorkers(was, CleanAll(cluster.links))
      invariant single ==>
        ReadOn(was, CleanAll(cluster.links), IdSet(arrival[..n])) && forall i :: 0 <= i < n ==> arrival[i] in Acked(was)
    {
      assert IdSet(arrival[..n + 1]) == IdSet(arrival[..n]) + {arrival[n]} &&
        (single ==> arrival[n] !in IdSet(arrival[..n]));
      r := ReadAck(cluster, arrival[n], was, IdSet(arrival[..n]));
      if r.Err? {
        all := DropTasks(cluster, arrival[n + 1..], dropped, was, IdSet(arrival[..n + 1]));
        if single { AcksFailed(was, CleanAll(cluster.links), arrival, dropped, n, all); }
        return;
      }
      succeeded := succeeded + [arrival[n]];
    }
    assert arrival[..|arrival|] == arrival;
    r := Ok(());
    if single { AcksDone(was, CleanAll(cluster.links), arrival, dropped); }
  }

  lemma {:induction false} AcksFailed(was: Links, now: Links, arrival: seq<NodeId>, dropped: set<NodeId>, n: nat,
                                      all: bool)
    requires n < |arrival| && Distinct(arrival)
    requires arrival[n] !in Acked(was) && forall i :: 0 <= i < n ==> arrival[i] in Acked(was)
    requires all <==> IdSet(arrival[n + 1..]) <= dropped
    requires Distinct(arrival[n + 1..]) && IdSet(arrival[..n + 1]) !! IdSet(arrival[n + 1..]) ==>
      ReadOn(was, now, IdSet(arrival[..n + 1]) + IdSet(arrival[n + 1..]) * dropped)
    ensures AcksRead(was, now, arrival, dropped, false, arrival[..n], all)
  {
    hide ReadOn, Acked;
    assert Lead(arrival, Acked(was)) == n;
    RestIds(arrival, n + 1, dropped);
  }

  lemma {:induction false} AcksDone(was: Links, now: Links, arrival: seq<NodeId>, dropped: set<NodeId>)
    requires ReadOn(was, now, IdSet(arrival)) && forall i :: 0 <= i < |arrival| ==> arrival[i] in Acked(was)
    ensures AcksRead(was, now, arrival, dropped, true, arrival, true)
  {
    hide ReadOn, Acked;
    assert arrival[..|arrival|] == arrival;
  }

  lemma {:induction false} ReadAllIds(arrival: seq<NodeId>, dropped: set<NodeId>)
    ensures ReadIds(arrival, |arrival|, dropped) == IdSet(arrival)
  {
  }

  lemma {:induction false} RestIds(ids: seq<NodeId>, n: nat, dropped: set<NodeId>)
    requires n <= |ids| && Distinct(ids)
    ensures IdSet(ids[..n]) !! IdSet(ids[n..]) && Distinct(ids[n..]) && IdSet(ids[n..]) <= IdSet(ids)
    ensures IdSet(ids) <= IdSet(ids[..n]) + IdSet(ids[n..]) * dropped <==> IdSet(ids[n..]) <= dropped
  {
    assert ids == ids[..n] + ids[n..];
    assert IdSet(ids) == IdSet(ids[..n]) + IdSet(ids[n..]);
  }

  // ----- the pipeline object -----

  ghost predicate QuietOn(links: Links, ids: set<NodeId>) {
    forall id :: id in ids && id in links ==> links[id].outbox == []
  }

  /** What makes a worker acknowledge an allocation. */
  ghost predicate Allocates(w: Worker, s: SeqId, env: Env) {
    s !in w.handles && env.contiguousOk && env.pagedOk
  }

  /** A worker with a new empty sequence in both maps. */
  ghost function WithSequence(w: Worker, s: SeqId): Worker
    requires w.cfg.Valid()
  {
    w.(handles := w.handles[s := EmptyCache(w.cfg)], pagedHandles := w.pagedHandles[s := EmptyCache(w.cfg)])
  }

  ghost function Without(w: Worker, gone: set<SeqId>): Worker {
    w.(handles := w.handles - gone, pagedHandles := w.pagedHandles - gone)
  }

  /** The links with the sequence added on the nodes `ids`. */
  ghost function AllocatedOn(m: Model, links: Links, ids: set<NodeId>, s: SeqId): Links
    requires ValidLinks(m, links)
  {
    map id | id in links ::
      if id in ids then assert ValidWorker(m, links[id].worker);
      Link(WithSequence(links[id].worker, s), links[id].outbox)
      else links[id]
  }

  lemma {:induction false} AllocReply(m: Model, l: Link, s: SeqId, env: Env)
    requires ValidWorker(m, l.worker) && l.outbox == []
    ensures var d := Delivered(m, l, CacheAlloc(s), env);
            d == if Allocates(l.worker, s, env)
              then Link(WithSequence(l.worker, s), Intent(env.leaves) + [CacheAllocAck])
                 else Link(l.worker, Intent(env.leaves) + [ErrorReply])
  {
    OneReply(CacheAllocAck);
    OneReply(ErrorReply);
  }

  lemma {:induction false} FreeReply(m: Model, l: Link, s: SeqId, env: Env)
    requires ValidWorker(m, l.worker) && s in l.worker.handles
    ensures Delivered(m, l, CacheFree(s), env) == Link(Without(l.worker, {s}), l.outbox + Intent(env.leaves))
  {
    assert Strip([]) == [];
  }

  /** The nodes that can allocate. */
  ghost function Allocating(links: Links, s: SeqId, env: NodeId -> Env): set<NodeId> {
    set id | id in links && Allocates(links[id].worker, s, env(id))
  }

  /** Those of them that say so at once: they do not announce their leave first. */
  ghost function Acking(links: Links, s: SeqId, env: NodeId -> Env): set<NodeId> {
    set id | id in Allocating(links, s, env) && !env(id).leaves
  }

  /** A node after phase one: what it says, behind the announcement of its leave if there is one. */
  ghost predicate SentAt(l: Link, l': Link, can: bool, leaves: bool, s: SeqId) {
    l.worker.cfg.Valid() &&
    l' == if can then Link(WithSequence(l.worker, s), Intent(leaves) + [CacheAllocAck])
          else Link(l.worker, Intent(leaves) + [ErrorReply])
  }

  /** After phase one the next reply of a node reached is an ack iff it has allocated and does not leave. */
  lemma {:induction false} AllocSent(m: Model, links: Links, ids: set<NodeId>, s: SeqId, env: NodeId -> Env)
    requires ValidLinks(m, links) && ids <= links.Keys && QuietOn(links, ids)
    ensures var mid := DeliverTo(m, links, ids, CacheAlloc(s), env);
            forall id :: id in ids ==>
              (id in Acked(mid) <==> id in Acking(links, s, env)) &&
              SentAt(links[id], mid[id], id in Allocating(links, s, env), env(id).leaves, s)
  {
    hide Delivered, ValidWorker;
    var mid := DeliverTo(m, links, ids, CacheAlloc(s), env);
    forall id | id in ids
      ensures SentAt(links[id], mid[id], Allocates(links[id].worker, s, env(id)), env(id).leaves, s)
    {
      WorkerRange(m, links[id].worker);
      AllocReply(m, links[id], s, env(id));
    }
  }

  /** When all acks have been read, every node has the sequence. */
  lemma {:induction false} AllocDone(m: Model, links: Links, ids: set<NodeId>, s: SeqId, env: NodeId -> Env, now: Links)
    requires ValidLinks(m, links) && ids <= links.Keys && QuietOn(links, ids) && ids <= Acking(links, s, env)
    requires ReadOn(DeliverTo(m, links, ids, CacheAlloc(s), env), now, ids)
    ensures now == AllocatedOn(m, links, ids, s)
  {
    hide Delivered, ValidWorker;
    AllocSent(m, links, ids, s, env);
    var mid, want := DeliverTo(m, links, ids, CacheAlloc(s), env), AllocatedOn(m, links, ids, s);
    assert now.Keys == want.Keys;
    forall id | id in links
      ensures now[id] == want[id]
    {
      assert id in mid;
      if id in ids { assert Rest(mid[id].outbox) == []; }
    }
  }

  // ----- what a failed allocation leaves behind -----

  /** The replies arrive from the nodes of the order, each once if it names each once. */
  predicate Arrives(order: seq<NodeId>, arrival: seq<NodeId>) {
    IdSet(arrival) == IdSet(order) && (Distinct(order) ==> Distinct(arrival))
  }

  /** The workers of `ids` do not announce their leave. */
  predicate AllStay(ids: seq<NodeId>, env: NodeId -> Env) {
    forall id :: id in ids ==> !env(id).leaves
  }

  /** How many acks, in the order of arrival, are read before the first other reply. */
  ghost function AckLead(links: Links, arrival: seq<NodeId>, s: SeqId, env: NodeId -> Env): (k: nat)
    ensures k <= |arrival|
  {
    Lead(arrival, Acking(links, s, env))
  }

  /**
   The nodes that hold the sequence after a failed allocation.  Those reached that can allocate
   do, except those whose acks arrive before the first other reply, if all nodes were reached.
   */
  ghost function LeftHolding(links: Links, order: seq<NodeId>, arrival: seq<NodeId>, s: SeqId,
                             env: NodeId -> Env): set<NodeId> {
    Reached(order, links.Keys) * Allocating(links, s, env) -
    if IdSet(order) <= links.Keys then IdSet(arrival[..AckLead(links, arrival, s, env)]) else {}
  }

  /**
   The nodes of which nothing is left unread after a failed allocation: a reply was read, and
   neither it nor the message that takes the sequence back was preceded by a leave.
   */
  ghost function DrainedBy(links: Links, order: seq<NodeId>, arrival: seq<NodeId>, dropped: set<NodeId>, s: SeqId,
                           env: NodeId -> Env, back: NodeId -> Env): set<NodeId>
  {
    if IdSet(order) <= links.Keys then
      var k := AckLead(links, arrival, s, env);
      set id | id in ReadIds(arrival, k, dropped) && !env(id).leaves && (id in arrival[..k] ==> !back(id).leaves)
    else {}
  }

  ghost predicate FailedAt(l: Link, l': Link, holds: bool, drained: bool, s: SeqId) {
    l.worker.cfg.Valid() && l'.worker == (if holds then WithSequence(l.worker, s) else l.worker) &&
    (l'.outbox == [] <==> drained)
  }

  /** After a failed allocation: who holds the sequence, and who has something unread; nothing else has changed. */
  ghost predicate FailedOn(links: Links, now: Links, ids: set<NodeId>, left: set<NodeId>, drained: set<NodeId>,
                           s: SeqId) {
    now.Keys == links.Keys &&
    forall id :: id in links ==>
      if id in ids then FailedAt(links[id], now[id], id in left, id in drained, s) else now[id] == links[id]
  }

  lemma {:induction false} SameLead(ids: seq<NodeId>, a: set<NodeId>, b: set<NodeId>)
    requires forall id :: id in ids ==> (id in a <==> id in b)
    ensures Lead(ids, a) == Lead(ids, b)
  {
    if ids != [] { SameLead(ids[1..], a, b); }
  }

  /** All nodes were reached and one did not ack: the acks read before are taken back, and no others. */
  lemma {:induction false} RolledBack(m: Model, links: Links, order: seq<NodeId>, arrival: seq<NodeId>,
                                      dropped: set<NodeId>, s: SeqId, env: NodeId -> Env, back: NodeId -> Env,
                                      read: Links)
    requires ValidLinks(m, links) && IdSet(order) <= links.Keys && QuietOn(links, IdSet(order)) &&
             Arrives(order, arrival)
    requires ValidLinks(m, read)
    requires var k := Lead(arrival, Acked(DeliverTo(m, links, IdSet(order), CacheAlloc(s), env)));
             k < |arrival| && ReadOn(DeliverTo(m, links, IdSet(order), CacheAlloc(s), env), read,
                                     ReadIds(arrival, k, dropped))
    ensures var k := AckLead(links, arrival, s, env);
            k == Lead(arrival, Acked(DeliverTo(m, links, IdSet(order), CacheAlloc(s), env))) &&
            FailedOn(links, DeliverTo(m, read, IdSet(arrival[..k]), CacheFree(s), back), IdSet(order),
                     LeftHolding(links, order, arrival, s, env),
                     DrainedBy(links, order, arrival, dropped, s, env, back), s)
  {
    hide Delivered, ValidWorker, ValidLinks, Allocating, Acking, Acked, Reached, FailedAt, ReadOn, ReadIds, SentAt;
    var ids := IdSet(order);
    var mid := DeliverTo(m, links, ids, CacheAlloc(s), env);
    AllocSent(m, links, ids, s, env);
    assert forall id :: id in arrival ==> id in IdSet(arrival);
    SameLead(arrival, Acking(links, s, env), Acked(mid));
    AllReached(order, links.Keys);
    var k := AckLead(links, arrival, s, env);
    ReadKeys(mid, read, ReadIds(arrival, k, dropped));
    var now := DeliverTo(m, read, IdSet(arrival[..k]), CacheFree(s), back);
    forall id | id in links
      ensures if id in ids then FailedAt(links[id], now[id], id in LeftHolding(links, order, arrival, s, env),
                                         id in DrainedBy(links, order, arrival, dropped, s, env, back), s)
              else now[id] == links[id]
    {
      FirstRead(arrival, k, dropped, id);
      AckingCan(links, s, env);
      RolledBackAt(m, links, mid, read, ids, IdSet(arrival[..k]), ReadIds(arrival, k, dropped), s, env, back, id);
    }
  }

  lemma {:induction false} AckingCan(links: Links, s: SeqId, env: NodeId -> Env)
    ensures forall id :: id in Acking(links, s, env) <==> id in Allocating(links, s, env) && !env(id).leaves
  {
    hide Allocating;
  }

  lemma {:induction false} ReadKeys(links: Links, now: Links, ids: set<NodeId>)
    requires ReadOn(links, now, ids)
    ensures now.Keys == links.Keys
  {
  }

  lemma {:induction false} FirstRead(arrival: seq<NodeId>, k: nat, dropped: set<NodeId>, id: NodeId)
    requires k < |arrival|
    ensures id in IdSet(arrival[..k]) ==>
      id in ReadIds(arrival, k, dropped) && exists i :: 0 <= i < k && arrival[i] == id
    ensures id in ReadIds(arrival, k, dropped) ==> id in IdSet(arrival)
  {
    if id in IdSet(arrival[..k]) {
      var i :| 0 <= i < k && arrival[i] == id;
      assert arrival[..k + 1][i] == id;
    }
  }

  lemma {:induction false} CanAllocate(links: Links, s: SeqId, env: NodeId -> Env, id: NodeId)
    requires id in Allocating(links, s, env)
    ensures id in links && Allocates(links[id].worker, s, env(id))
  {
  }

  /** Of an announcement and a reply one is left when one has been read, of a reply alone nothing. */
  lemma {:induction false} AnyRest(said: seq<Reply>, leaves: bool)
    requires |said| == |Intent(leaves)| + 1
    ensures said != [] && (Rest(said) == [] <==> !leaves)
  {
  }

  lemma {:induction false} FailsAt(l: Link, l': Link, holds: bool, drained: bool, s: SeqId)
    requires l.worker.cfg.Valid() && l'.worker == (if holds then WithSequence(l.worker, s) else l.worker)
    requires l'.outbox == [] <==> drained
    ensures FailedAt(l, l', holds, drained, s)
  {
  }

  /** One node: told to free the sequence again iff it is among the first, whose acks have been read. */
  lemma {:induction false} RolledBackAt(m: Model, links: Links, mid: Links, read: Links, ids: set<NodeId>,
                                        first: set<NodeId>, done: set<NodeId>, s: SeqId, env: NodeId -> Env,
                                        back: NodeId -> Env, id: NodeId)
    requires ValidLinks(m, links) && ValidLinks(m, read) && ReadOn(mid, read, done) && ids <= links.Keys &&
             id in links && mid.Keys == links.Keys
    requires id !in ids ==> mid[id] == links[id] && id !in done
    requires id in ids ==> SentAt(links[id], mid[id], id in Allocating(links, s, env), env(id).leaves, s)
    requires id in first ==> id in ids && id in done && id in Allocating(links, s, env) && !env(id).leaves
    ensures var now := DeliverTo(m, read, first, CacheFree(s), back);
            id in now &&
            if id in ids then FailedAt(links[id], now[id], id in Allocating(links, s, env) && id !in first,
                                       id in done && !env(id).leaves && (id in first ==> !back(id).leaves), s)
            else now[id] == links[id]
  {
    hide Delivered, WithSequence, Allocating, FailedAt;
    if id in ids {
      var can := id in Allocating(links, s, env);
      AnyRest(Intent(env(id).leaves) + [if can then CacheAllocAck else ErrorReply], env(id).leaves);
      if id in first {
        assert id in Allocating(links, s, env) &&
          Allocates(links[id].worker, s, env(id)) by { CanAllocate(links, s, env, id); }
        TakenBack(m, links[id].worker, s, env(id), back(id));
        FailsAt(links[id], Link(links[id].worker, Intent(back(id).leaves)), false, !back(id).leaves, s);
      } else {
        FailsAt(links[id], read[id], can, id in done && !env(id).leaves, s);
      }
    }
  }

  lemma {:induction false} AllReached(order: seq<NodeId>, known: set<NodeId>)
    requires IdSet(order) <= known
    ensures Reached(order, known) == IdSet(order)
  {
    assert forall i :: 0 <= i < |order| ==> order[i] in IdSet(order);
    assert Lead(order, known) == |order|;
    assert order[..|order|] == order;
  }

  /** Allocating and freeing again leaves the worker as it was, without a reply. */
  lemma {:induction false} TakenBack(m: Model, w: Worker, s: SeqId, env: Env, back: Env)
    requires ValidWorker(m, w) && Allocates(w, s, env)
    ensures w.cfg.Valid() && ValidWorker(m, WithSequence(w, s)) &&
            Delivered(m, Link(WithSequence(w, s), []), CacheFree(s), back) == Link(w, Intent(back.leaves))
  {
    WorkerRange(m, w);
    FreeReply(m, Link(WithSequence(w, s), []), s, back);
    assert w.handles[s := EmptyCache(w.cfg)] - {s} == w.handles &&
      w.pagedHandles[s := EmptyCache(w.cfg)] - {s} == w.pagedHandles;
  }

  /** A node is not registered: what was sent before is not taken back, and no reply is read. */
  lemma {:induction false} StoppedShort(m: Model, links: Links, order: seq<NodeId>, arrival: seq<NodeId>,
                                        dropped: set<NodeId>, s: SeqId, env: NodeId -> Env, back: NodeId -> Env)
    requires ValidLinks(m, links) && !(IdSet(order) <= links.Keys) && QuietOn(links, IdSet(order))
    ensures Reached(order, links.Keys) <= IdSet(order) * links.Keys
    ensures FailedOn(links, DeliverTo(m, links, Reached(order, links.Keys), CacheAlloc(s), env),
                     Reached(order, links.Keys), LeftHolding(links, order, arrival, s, env),
                     DrainedBy(links, order, arrival, dropped, s, env, back), s)
  {
    hide Delivered, ValidWorker, WithSequence, Allocates;
    var ids := Reached(order, links.Keys);
    assert ids <= IdSet(order) * links.Keys;
    AllocSent(m, links, ids, s, env);
  }

  /** Who holds the sequence is told by the links before the call and the order of arrival. */
  lemma {:induction false} LeftBehind(links: Links, now: Links, ids: set<NodeId>, left: set<NodeId>,
                                      drained: set<NodeId>, s: SeqId, id: NodeId)
    requires FailedOn(links, now, ids, left, drained, s) && left <= ids && id in links && s !in links[id].worker.handles
    ensures id in now && (s in now[id].worker.handles <==> id in left)
  {
    if id in ids { assert FailedAt(links[id], now[id], id in left, id in drained, s); }
  }

  /**
   Exactly when a failed allocation can leave a worker holding the sequence: some order of
   arrival does iff one worker can allocate and one, perhaps the same, cannot or announces its
   leave first.
   */
  lemma {:induction false} SomeOrderLeaves(links: Links, order: seq<NodeId>, s: SeqId, env: NodeId -> Env)
    requires Distinct(order) && IdSet(order) <= links.Keys
    ensures (exists arrival :: Arrives(order, arrival) && LeftHolding(links, order, arrival, s, env) != {}) <==>
            (exists id :: id in order && id in Allocating(links, s, env)) &&
            (exists id :: id in order && (id !in Allocating(links, s, env) || env(id).leaves))
  {
    hide LeftHolding, Allocating, Acking, Arrives;
    AckingCan(links, s, env);
    var can, ack := Allocating(links, s, env), Acking(links, s, env);
    if arrival :| Arrives(order, arrival) && LeftHolding(links, order, arrival, s, env) != {} {
      OneOfEach(links, order, arrival, s, env);
    }
    if good, bad :| good in order && good in can && bad in order && bad !in ack {
      var b :| 0 <= b < |order| && order[b] == bad;
      RefusalFirst(order, b);
      LeftByRefusal(links, order, b, s, env, good);
    }
  }

  lemma {:induction false} OneOfEach(links: Links, order: seq<NodeId>, arrival: seq<NodeId>, s: SeqId,
                                     env: NodeId -> Env)
    requires IdSet(order) <= links.Keys && Arrives(order, arrival) && LeftHolding(links, order, arrival, s, env) != {}
    ensures exists id :: id in order && id in Allocating(links, s, env)
    ensures exists id :: id in order && id !in Acking(links, s, env)
  {
    hide Allocating, Acking;
    AllReached(order, links.Keys);
    var id :| id in LeftHolding(links, order, arrival, s, env);
    var k := AckLead(links, arrival, s, env);
    assert id in IdSet(arrival);
    assert arrival[..|arrival|] == arrival;
    assert k < |arrival|;
    assert arrival[k] in IdSet(arrival);
    assert arrival[k] in order && arrival[k] !in Acking(links, s, env) && id in order;
  }

  lemma {:induction false} LeftByRefusal(links: Links, order: seq<NodeId>, b: nat, s: SeqId, env: NodeId -> Env,
                                         good: NodeId)
    requires IdSet(order) <= links.Keys && b < |order| && order[b] !in Acking(links, s, env)
    requires good in order && good in Allocating(links, s, env)
    ensures good in LeftHolding(links, order, [order[b]] + order[..b] + order[b + 1..], s, env)
  {
    hide Allocating, Acking;
    var arrival := [order[b]] + order[..b] + order[b + 1..];
    AllReached(order, links.Keys);
    assert Lead(arrival, Acking(links, s, env)) == 0 && arrival[..0] == [];
  }

  lemma {:induction false} RefusalFirst(order: seq<NodeId>, b: nat)
    requires b < |order|
    ensures Arrives(order, [order[b]] + order[..b] + order[b + 1..])
  {
    var arrival := [order[b]] + order[..b] + order[b + 1..];
    forall id | id in order
      ensures id in arrival
    {
      var i :| 0 <= i < |order| && order[i] == id;
      assert arrival[if i == b then 0 else if i < b then i + 1 else i] == id;
    }
    forall i | 0 <= i < |arrival|
      ensures arrival[i] == order[if i == 0 then b else if i <= b then i - 1 else i]
    {
    }
  }

  /**
   A refused allocation is sure to leave nothing unread, whatever the order of arrival and whatever
   tasks are dropped, iff it was made of a single worker that does not announce its leave.
   */
  lemma {:induction false} SurelyDrained(links: Links, order: seq<NodeId>, s: SeqId, env: NodeId -> Env,
                                         back: NodeId -> Env)
    requires Distinct(order) && IdSet(order) <= links.Keys && !(IdSet(order) <= Acking(links, s, env))
    ensures (forall arrival, dropped :: Arrives(order, arrival) ==>
               IdSet(order) <= DrainedBy(links, order, arrival, dropped, s, env, back)) <==>
            |order| == 1 && AllStay(order, env)
  {
    hide Acking, DrainedBy, Arrives, AllStay;
    if |order| == 1 && AllStay(order, env) {
      forall arrival, dropped | Arrives(order, arrival)
        ensures IdSet(order) <= DrainedBy(links, order, arrival, dropped, s, env, back)
      {
        OneDrained(links, order, arrival, dropped, s, env, back);
      }
    } else {
      var bad :| bad in IdSet(order) && bad !in Acking(links, s, env);
      var b :| 0 <= b < |order| && order[b] == bad;
      RefusalFirst(order, b);
      SomeUndrained(links, order, b, s, env, back);
    }
  }

  lemma {:induction false} OneDrained(links: Links, order: seq<NodeId>, arrival: seq<NodeId>, dropped: set<NodeId>,
                                      s: SeqId, env: NodeId -> Env, back: NodeId -> Env)
    requires |order| == 1 && IdSet(order) <= links.Keys && !(IdSet(order) <= Acking(links, s, env)) &&
             AllStay(order, env) && Arrives(order, arrival)
    ensures IdSet(order) <= DrainedBy(links, order, arrival, dropped, s, env, back)
  {
    hide Acking, DrainedBy;
    DrainedAll(links, order, arrival, dropped, s, env, back);
    assert forall id :: id in arrival <==> id in IdSet(arrival);
    Sorting.SameCount(arrival, order);
    assert arrival == [arrival[0]] && arrival[..1] == arrival && arrival[..0] == [];
    LeadAll(arrival, Acking(links, s, env));
  }

  lemma {:induction false} SomeUndrained(links: Links, order: seq<NodeId>, b: nat, s: SeqId, env: NodeId -> Env,
                                         back: NodeId -> Env)
    requires Distinct(order) && IdSet(order) <= links.Keys && b < |order| && order[b] !in Acking(links, s, env)
    requires |order| != 1 || !AllStay(order, env)
    requires Arrives(order, [order[b]] + order[..b] + order[b + 1..])
    ensures !(IdSet(order) <= DrainedBy(links, order, [order[b]] + order[..b] + order[b + 1..], {}, s, env, back))
  {
    hide Acking, DrainedBy, AllStay;
    var arrival := [order[b]] + order[..b] + order[b + 1..];
    DrainedAll(links, order, arrival, {}, s, env, back);
    assert Lead(arrival, Acking(links, s, env)) == 0;
    assert ReadIds(arrival, 0, {}) == IdSet(arrival[..1]);
    if |order| > 1 { assert arrival[1] in IdSet(arrival) && arrival[1] !in arrival[..1]; }
  }

  /**
   Two workers, of which the first can allocate: its ack comes after the other's refusal, or the
   other is not registered.
   */
  lemma {:induction false} RollbackMisses(w: Worker, s: SeqId, can: Env, cannot: Env)
    requires s !in w.handles && can.contiguousOk && can.pagedOk && !cannot.pagedOk
    ensures var env := id => if id == "a" then can else cannot;
            Arrives(["a", "b"], ["b", "a"]) &&
            LeftHolding(map["a" := Link(w, []), "b" := Link(w, [])], ["a", "b"], ["b", "a"], s, env) == {"a"} &&
            LeftHolding(map["a" := Link(w, [])], ["a", "b"], ["b", "a"], s, env) == {"a"}
  {
    var env := id => if id == "a" then can else cannot;
    var order, arrival := ["a", "b"], ["b", "a"];
    var both, one := map["a" := Link(w, []), "b" := Link(w, [])], map["a" := Link(w, [])];
    assert order[0] == "a" && order[1] == "b" && arrival[0] == "b" && arrival[1] == "a";
    assert Allocating(both, s, env) == {"a"} == Allocating(one, s, env);
    AllReached(order, both.Keys);
    assert "b" !in Acking(both, s, env) && arrival[..0] == [];
    assert Lead(order, one.Keys) == 1 && order[..1] == ["a"];
    assert "b" in IdSet(order) && "b" !in one.Keys;
  }

  /** One worker, which can allocate and nobody refuses: it announces its leave first, and keeps the sequence. */
  lemma {:induction false} LeaveMisses(m: Model, w: Worker, s: SeqId, env: Env)
    requires ValidWorker(m, w) && Allocates(w, s, env) && env.leaves
    ensures var links := map["a" := Link(w, [])];
            LeftHolding(links, ["a"], ["a"], s, _ => env) == {"a"} && ValidLinks(m, links) &&
            DeliverTo(m, links, {"a"}, CacheAlloc(s), _ => env)["a"].outbox == [LeaveIntent, CacheAllocAck]
  {
    var links, one := map["a" := Link(w, [])], ["a"];
    assert one[0] == "a" && Allocating(links, s, _ => env) == {"a"} && Acking(links, s, _ => env) == {};
    AllReached(one, links.Keys);
    assert one[..0] == [];
    AllocReply(m, links["a"], s, env);
  }

  // ----- what is tracked through allocation and release -----

  lemma {:induction false} NodeIdSet(parts: seq<LayerAssignment>, k: nat)
    requires k < |parts|
    ensures parts[k].nodeId in IdSet(NodeIds(parts))
  {
    assert NodeIds(parts)[k] == parts[k].nodeId;
  }

  lemma {:induction false} ConcatHolds(css: seq<seq<KV>>, n: nat)
    requires forall k :: 0 <= k < |css| ==> CachesHold(css[k], n)
    ensures CachesHold(Concat(css), n)
  {
    if css != [] { ConcatHolds(css[1..], n); }
  }

  /** The links after a change that touches one sequence only, at every stage. */
  ghost predicate TouchesOnly(m: Model, parts: seq<LayerAssignment>, links: Links, links': Links, s: SeqId) {
    links'.Keys == links.Keys && ValidLinks(m, links') &&
    forall k :: 0 <= k < |parts| && parts[k].nodeId in links ==>
      TouchesAt(links[parts[k].nodeId].worker, links'[parts[k].nodeId].worker, s)
  }

  ghost predicate TouchesAt(w: Worker, w': Worker, s: SeqId) {
    w'.cfg == w.cfg && w'.hiddenSize == w.hiddenSize && w'.handles - {s} == w.handles - {s} &&
    w'.pagedHandles - {s} == w.pagedHandles - {s}
  }

  lemma {:induction false} OthersTracked(m: Model, parts: seq<LayerAssignment>, hiddenSize: nat, links: Links,
                                         links': Links, paged: bool, seen: map<SeqId, seq<nat>>, s: SeqId)
    requires Tracks(m, parts, hiddenSize, links, paged, seen) && TouchesOnly(m, parts, links, links', s)
    ensures Tracks(m, parts, hiddenSize, links', paged, seen - {s}) <==> Quiet(parts, links')
  {
    hide Tiles, ValidWorker, HeldFor;
    forall k | 0 <= k < |parts|
      ensures LaidAt(m, parts[k], hiddenSize, links')
    {
      assert LaidAt(m, parts[k], hiddenSize, links);
      assert TouchesAt(links[parts[k].nodeId].worker, links'[parts[k].nodeId].worker, s);
    }
    forall t | t in seen - {s}
      ensures HeldByAll(parts, links', paged, t) && HeldFor(m, WholeCache(parts, links', paged, t), seen[t])
    {
      forall k | 0 <= k < |parts|
        ensures HeldAt(parts[k], links', paged, t)
        ensures Side(links'[parts[k].nodeId].worker, paged)[t] == Side(links[parts[k].nodeId].worker, paged)[t]
      {
        assert HeldAt(parts[k], links, paged, t);
        var w, w' := links[parts[k].nodeId].worker, links'[parts[k].nodeId].worker;
        assert TouchesAt(links[parts[k].nodeId].worker, links'[parts[k].nodeId].worker, s);
        assert t in Side(w, paged) - {s} && (Side(w', paged) - {s})[t] == (Side(w, paged) - {s})[t];
      }
      assert StageCaches(parts, links', paged, t) == StageCaches(parts, links, paged, t);
    }
  }

  lemma {:induction false} WithSequenceTouches(m: Model, w: Worker, s: SeqId)
    requires ValidWorker(m, w) && s !in w.handles
    ensures ValidWorker(m, WithSequence(w, s))
    ensures TouchesAt(w, WithSequence(w, s), s)
    ensures forall paged :: s in Side(WithSequence(w, s), paged) && CachesHold(Side(WithSequence(w, s), paged)[s], 0)
  {
  }

  lemma {:induction false} AllocTouches(m: Model, parts: seq<LayerAssignment>, links: Links, paged: bool, s: SeqId)
    requires ValidLinks(m, links)
    requires forall id :: id in IdSet(NodeIds(parts)) ==> id in links && s !in links[id].worker.handles
    ensures var links' := AllocatedOn(m, links, IdSet(NodeIds(parts)), s);
            TouchesOnly(m, parts, links, links', s) && HeldByAll(parts, links', paged, s) &&
            forall k :: 0 <= k < |parts| ==>
              parts[k].nodeId in links' && CachesHold(StageCaches(parts, links', paged, s)[k], 0)
  {
    hide NodeIds, ValidWorker, WithSequence, TouchesAt, CachesHold;
    var links' := AllocatedOn(m, links, IdSet(NodeIds(parts)), s);
    forall id | id in IdSet(NodeIds(parts))
      ensures links[id].worker.cfg.Valid() && ValidWorker(m, WithSequence(links[id].worker, s))
      ensures TouchesAt(links[id].worker, links'[id].worker, s)
      ensures forall paged :: s in Side(links'[id].worker, paged) && CachesHold(Side(links'[id].worker, paged)[s], 0)
    {
      WorkerRange(m, links[id].worker);
      WithSequenceTouches(m, links[id].worker, s);
    }
    forall k | 0 <= k < |parts|
      ensures parts[k].nodeId in links && TouchesAt(links[parts[k].nodeId].worker, links'[parts[k].nodeId].worker, s)
      ensures HeldAt(parts[k], links', paged, s) && CachesHold(Side(links'[parts[k].nodeId].worker, paged)[s], 0)
    {
      NodeIdSet(parts, k);
    }
  }

  /** A sequence allocated on all stages is tracked from nothing. */
  lemma {:induction false} TracksAlloc(m: Model, parts: seq<LayerAssignment>, hiddenSize: nat, links: Links,
                                       paged: bool, seen: map<SeqId, seq<nat>>, s: SeqId)
    requires Tracks(m, parts, hiddenSize, links, paged, seen) && ValidLinks(m, links)
    requires forall id :: id in IdSet(NodeIds(parts)) ==> id in links && s !in links[id].worker.handles
    ensures Tracks(m, parts, hiddenSize, AllocatedOn(m, links, IdSet(NodeIds(parts)), s), paged, seen[s := []])
  {
    hide Laid, Quiet, HeldFor, NodeIds, Concat, TouchesOnly, HeldByAll, StageCaches, WholeCache, AllocatedOn,
      ValidLinks;
    var links' := AllocatedOn(m, links, IdSet(NodeIds(parts)), s);
    AllocTouches(m, parts, links, paged, s);
    AllocQuiet(m, parts, hiddenSize, links, paged, seen, s);
    OthersTracked(m, parts, hiddenSize, links, links', paged, seen, s);
    NewHeld(m, parts, hiddenSize, links', paged, s);
    var seen' := seen[s := []];
    forall t | t in seen'
      ensures HeldByAll(parts, links', paged, t) && HeldFor(m, WholeCache(parts, links', paged, t), seen'[t])
    {
      if t != s { assert t in seen - {s} && (seen - {s})[t] == seen[t]; }
    }
  }

  lemma {:induction false} AllocQuiet(m: Model, parts: seq<LayerAssignment>, hiddenSize: nat, links: Links,
                                      paged: bool, seen: map<SeqId, seq<nat>>, s: SeqId)
    requires Tracks(m, parts, hiddenSize, links, paged, seen) && ValidLinks(m, links)
    ensures Quiet(parts, AllocatedOn(m, links, IdSet(NodeIds(parts)), s))
  {
    hide Laid, HeldFor, NodeIds, HeldByAll, ValidWorker;
    var links' := AllocatedOn(m, links, IdSet(NodeIds(parts)), s);
    forall k | 0 <= k < |parts|
      ensures QuietAt(parts[k], links')
    {
      assert QuietAt(parts[k], links);
    }
  }

  lemma {:induction false} NewHeld(m: Model, parts: seq<LayerAssignment>, hiddenSize: nat, links: Links, paged: bool,
                                   s: SeqId)
    requires Laid(m, parts, hiddenSize, links) && HeldByAll(parts, links, paged, s)
    requires forall k :: 0 <= k < |parts| ==>
      parts[k].nodeId in links && CachesHold(StageCaches(parts, links, paged, s)[k], 0)
    ensures HeldFor(m, WholeCache(parts, links, paged, s), [])
  {
    hide CachesHold, Concat;
    var css := StageCaches(parts, links, paged, s);
    forall k | 0 <= k < |parts|
      ensures parts[k].start + |css[k]| == parts[k].end && Paired(css[k])
    {
      assert LaidAt(m, parts[k], hiddenSize, links) && HeldAt(parts[k], links, paged, s);
      assert Shaped(links[parts[k].nodeId].worker.cfg, css[k]);
    }
    ConcatPaired(parts, css, 0);
    ConcatHolds(css, 0);
    NothingHeld(m, Concat(css));
  }

  /** The sequences other than s that all stages hold are still held by all. */
  ghost predicate HeldOn(parts: seq<LayerAssignment>, links: Links, links': Links, paged: bool, s: SeqId) {
    forall t :: t != s && HeldByAll(parts, links, paged, t) ==> HeldByAll(parts, links', paged, t)
  }

  lemma {:induction false} TouchedHeld(m: Model, parts: seq<LayerAssignment>, links: Links, links': Links,
                                       paged: bool, s: SeqId)
    requires TouchesOnly(m, parts, links, links', s)
    ensures HeldOn(parts, links, links', paged, s)
  {
    forall t | t != s && HeldByAll(parts, links, paged, t)
      ensures HeldByAll(parts, links', paged, t)
    {
      forall k | 0 <= k < |parts|
        ensures HeldAt(parts[k], links', paged, t)
      {
        assert HeldAt(parts[k], links, paged, t);
        var w, w' := links[parts[k].nodeId].worker, links'[parts[k].nodeId].worker;
        assert TouchesAt(links[parts[k].nodeId].worker, links'[parts[k].nodeId].worker, s);
        assert t in Side(w, paged) - {s} && t in Side(w', paged) - {s};
      }
    }
  }

  lemma {:induction false} TracksFewer(m: Model, parts: seq<LayerAssignment>, hiddenSize: nat, links: Links,
                                       paged: bool, seen: map<SeqId, seq<nat>>, call: Call)
    requires Tracks(m, parts, hiddenSize, links, paged, seen)
    ensures Tracks(m, parts, hiddenSize, links, paged, Outside(seen, call)) && Quiet(parts, links) &&
            forall s :: s in seen ==> HeldByAll(parts, links, paged, s)
  {
    hide HeldFor, HeldByAll, Laid, Quiet;
  }

  /**
   A sequence held by all stages is freed, on all or some of them, and is tracked no more.  The
   others are tracked on iff nobody who is told announces its leave.
   */
  lemma {:induction false} TracksFree(m: Model, parts: seq<LayerAssignment>, hiddenSize: nat, links: Links,
                                      paged: bool, seen: map<SeqId, seq<nat>>, s: SeqId, ids: seq<NodeId>,
                                      env: NodeId -> Env)
    requires Tracks(m, parts, hiddenSize, links, paged, seen) && ValidLinks(m, links) &&
             HeldByAll(parts, links, paged, s) && IdSet(ids) <= IdSet(NodeIds(parts))
    ensures Tracks(m, parts, hiddenSize, DeliverTo(m, links, IdSet(ids), CacheFree(s), env), paged, seen - {s}) <==>
            AllStay(ids, env)
    ensures HeldOn(parts, links, DeliverTo(m, links, IdSet(ids), CacheFree(s), env), paged, s)
  {
    hide Tiles, HeldFor, NodeIds, Concat, Delivered;
    var links' := DeliverTo(m, links, IdSet(ids), CacheFree(s), env);
    forall k | 0 <= k < |parts| && parts[k].nodeId in links
      ensures var id := parts[k].nodeId;
              TouchesAt(links[id].worker, links'[id].worker, s) &&
              (QuietAt(parts[k], links') <==> id !in ids || !env(id).leaves)
    {
      NodeIdSet(parts, k);
      assert HeldAt(parts[k], links, paged, s) && QuietAt(parts[k], links);
      assert ValidWorker(m, links[parts[k].nodeId].worker);
      FreeReply(m, links[parts[k].nodeId], s, env(parts[k].nodeId));
    }
    StayQuiet(parts, links, links', ids, env);
    OthersTracked(m, parts, hiddenSize, links, links', paged, seen, s);
    TouchedHeld(m, parts, links, links', paged, s);
  }

  lemma {:induction false} StayQuiet(parts: seq<LayerAssignment>, links: Links, links': Links, ids: seq<NodeId>,
                                     env: NodeId -> Env)
    requires Quiet(parts, links) && IdSet(ids) <= IdSet(NodeIds(parts))
    requires forall k :: 0 <= k < |parts| && parts[k].nodeId in links ==>
      (QuietAt(parts[k], links') <==> parts[k].nodeId !in ids || !env(parts[k].nodeId).leaves)
    ensures Quiet(parts, links') <==> AllStay(ids, env)
  {
    assert forall k :: 0 <= k < |parts| ==> QuietAt(parts[k], links);
    if Quiet(parts, links') {
      forall id | id in ids
        ensures !env(id).leaves
      {
        assert id in IdSet(NodeIds(parts));
        var k :| 0 <= k < |parts| && NodeIds(parts)[k] == id;
        assert QuietAt(parts[k], links');
      }
    }
  }

  /** After a failed allocation the other sequences are served on iff nothing is left unread. */
  lemma {:induction false} TracksFailed(m: Model, parts: seq<LayerAssignment>, hiddenSize: nat, links: Links,
                                        now: Links, paged: bool, seen: map<SeqId, seq<nat>>, left: set<NodeId>,
                                        drained: set<NodeId>, s: SeqId)
    requires Tracks(m, parts, hiddenSize, links, paged, seen) && ValidLinks(m, links) && ValidLinks(m, now) &&
             s !in seen
    requires FailedOn(links, now, IdSet(NodeIds(parts)), left, drained, s)
    ensures Tracks(m, parts, hiddenSize, now, paged, seen) <==> IdSet(NodeIds(parts)) <= drained
  {
    hide Tiles, HeldFor, NodeIds, Concat, ValidWorker, HeldByAll;
    var ids := IdSet(NodeIds(parts));
    forall k | 0 <= k < |parts|
      ensures var id := parts[k].nodeId;
              id in links && TouchesAt(links[id].worker, now[id].worker, s) &&
              (QuietAt(parts[k], now) <==> id in drained)
    {
      NodeIdSet(parts, k);
      assert QuietAt(parts[k], links);
      var id := parts[k].nodeId;
      assert FailedAt(links[id], now[id], id in left, id in drained, s);
    }
    OthersTracked(m, parts, hiddenSize, links, now, paged, seen, s);
    assert seen - {s} == seen;
    if ids <= drained {
      forall k | 0 <= k < |parts|
        ensures QuietAt(parts[k], now)
      {
        NodeIdSet(parts, k);
      }
    } else {
      var id :| id in ids && id !in drained;
      var k :| 0 <= k < |parts| && NodeIds(parts)[k] == id;
      assert !QuietAt(parts[k], now);
    }
  }

  // ----- unread replies -----

  /**
   Why unread replies matter: behind an unread ack of a one-stage pipeline a first pass fails,
   and the next pass is given the logits of the first.
   */
  lemma {:induction false} StaleLogits(m: Model, id: NodeId, w: Worker, first: Call, second: Call, input: WireInput,
                                       next: WireInput, env: Env, a: Row, b: Row)
    requires ValidWorker(m, w) && first.Batch? && second.Batch? && !env.leaves
    requires var served := Serve(m, w, RequestOf(first, input), env);
             served.replies == [LogitsReply(a, true)] && ValidWorker(m, served.worker) &&
             Serve(m, served.worker, RequestOf(second, next), env).replies == [LogitsReply(b, true)]
    ensures var links := map[id := Link(w, [CacheAllocAck])];
            ValidLinks(m, links) &&
            var out := Stages(m, [id], w.hiddenSize, first, input, [env], 0, links);
            out.result == Err(Protocol) && Stages(m, [id], w.hiddenSize, second, next, [env], 0,
                                                  out.links).result == Ok(a)
  {
    hide Serve, ValidWorker, RequestOf;
    OneReply(LogitsReply(a, true));
    OneReply(LogitsReply(b, true));
    var links := map[id := Link(w, [CacheAllocAck])];
    var d := Delivered(m, links[id], RequestOf(first, input), env);
    assert d.outbox == [CacheAllocAck, LogitsReply(a, true)] && d.outbox[1..] == [LogitsReply(a, true)];
    var out := Stages(m, [id], w.hiddenSize, first, input, [env], 0, links);
    assert out.links[id] == Link(d.worker, [LogitsReply(a, true)]);
    var e := Delivered(m, out.links[id], RequestOf(second, next), env);
    assert e.outbox == [LogitsReply(a, true), LogitsReply(b, true)];
  }

  /**
   The same without any leftover: the only worker of a pipeline announces its leave before it
   answers a first pass, which fails, and the next pass is given the logits of the first.
   */
  lemma {:induction false} LeaveStale(m: Model, id: NodeId, w: Worker, first: Call, second: Call, input: WireInput,
                                      next: WireInput, leaving: Env, env: Env, a: Row, b: Row)
    requires ValidWorker(m, w) && first.Batch? && second.Batch? && leaving.leaves && !env.leaves
    requires var served := Serve(m, w, RequestOf(first, input), leaving);
             served.replies == [LogitsReply(a, true)] && ValidWorker(m, served.worker) &&
             Serve(m, served.worker, RequestOf(second, next), env).replies == [LogitsReply(b, true)]
    ensures var links := map[id := Link(w, [])];
            ValidLinks(m, links) &&
            var out := Stages(m, [id], w.hiddenSize, first, input, [leaving], 0, links);
            out.result == Err(Protocol) && out.links[id].outbox == [LogitsReply(a, true)] &&
            Stages(m, [id], w.hiddenSize, second, next, [env], 0, out.links).result == Ok(a)
  {
    hide Serve, ValidWorker, RequestOf;
    OneReply(LogitsReply(a, true));
    OneReply(LogitsReply(b, true));
    var links := map[id := Link(w, [])];
    StagesLeave(m, [id], w.hiddenSize, first, input, [leaving], 0, links);
    var out := Stages(m, [id], w.hiddenSize, first, input, [leaving], 0, links);
    var e := Delivered(m, out.links[id], RequestOf(second, next), env);
    assert e.outbox == [LogitsReply(a, true), LogitsReply(b, true)];
  }

  /** All logits of the model are v numbers. */
  ghost predicate VocabSize(m: Model, v: nat) {
    forall x :: |Logits(m, x)| == v
  }

  /** The batch continues tracked sequences, each with its own ids. */
  ghost predicate BatchContinues(m: Model, metas: seq<SequenceMeta>, ids: seq<nat>, seen: map<SeqId, seq<nat>>,
                                 idss: seq<seq<nat>>, seen': map<SeqId, seq<nat>>, v: nat) {
    VocabSize(m, v) && Sound(Batch(metas)) && ids == Concat(idss) &&
    Continues(seen, Batch(metas), idss) && Extended(seen, Batch(metas), idss, seen')
  }

  lemma {:induction false} ReferencesLong(m: Model, seen: map<SeqId, seq<nat>>, call: Call, idss: seq<seq<nat>>, v: nat)
    requires VocabSize(m, v) && Continues(seen, call, idss)
    ensures AllLong(ReferenceAll(m, seen, call, idss), v)
  {
  }

  lemma {:induction false} SinglePass(m: Model, parts: seq<LayerAssignment>, hiddenSize: nat, links: Links, s: SeqId,
                                      ids: seq<nat>, envs: seq<Env>, seen: map<SeqId, seq<nat>>)
    requires Tracks(m, parts, hiddenSize, links, false, seen) && |parts| <= |envs| && s in seen && ids != []
    ensures ValidLinks(m, links)
    ensures var out := Stages(m, NodeIds(parts), hiddenSize, Single(s, Positions(|seen[s]|, |ids|)), WireIds(ids),
                              envs, 0, links);
            (out.result.Ok? <==> AllAnswer(envs, 0, |parts|)) &&
            (MetLeave(m, NodeIds(parts), hiddenSize, Single(s, Positions(|seen[s]|, |ids|)), WireIds(ids), envs, 0,
                      links) <==>
               LeaveMet(envs, 0, |parts|)) &&
            (out.result.Ok? ==>
              out.result.value == ReferenceLogits(m, seen[s] + ids) &&
              Tracks(m, parts, hiddenSize, out.links, false, seen[s := seen[s] + ids]))
  {
    hide Tracks, Stages, ReferenceLogits, AllAnswer, ValidLinks, MetLeave, LeaveMet;
    var call := Single(s, Positions(|seen[s]|, |ids|));
    assert call.SeqAt(0) == s && call.Has(s);
    TracksPass(m, parts, hiddenSize, links, call, [ids], envs, seen, seen[s := seen[s] + ids]);
    ConcatOne(ids);
    ConcatOne(ReferenceLogits(m, seen[s] + ids));
    assert ReferenceAll(m, seen, call, [ids]) == [ReferenceLogits(m, seen[s] + ids)];
  }

  /** The workers after the sequences `gone` have been freed on the nodes `ids`. */
  ghost predicate FreedWorkers(links: Links, links': Links, ids: set<NodeId>, gone: set<SeqId>) {
    links'.Keys == links.Keys &&
    forall id :: id in links ==>
      links'[id].worker == if id in ids then Without(links[id].worker, gone) else links[id].worker
  }

  lemma {:induction false} FreeWorker(m: Model, l: Link, s: SeqId, env: Env)
    requires ValidWorker(m, l.worker)
    ensures Delivered(m, l, CacheFree(s), env).worker == Without(l.worker, {s})
  {
    if s !in l.worker.handles {
      assert l.worker.handles - {s} == l.worker.handles && l.worker.pagedHandles - {s} == l.worker.pagedHandles;
    }
  }

  lemma {:induction false} WithoutBoth(w: Worker, gone: set<SeqId>, more: set<SeqId>)
    ensures Without(Without(w, gone), more) == Without(w, gone + more)
  {
    assert w.handles - gone - more == w.handles - (gone + more) &&
      w.pagedHandles - gone - more == w.pagedHandles - (gone + more);
  }

  lemma {:induction false} FreedNext(m: Model, links: Links, now: Links, ids: set<NodeId>, id: NodeId, s: SeqId,
                                     env: Env)
    requires id in links && ValidLinks(m, now) && FreedWorkers(links, now, ids, {s})
    ensures FreedWorkers(links, now[id := Delivered(m, now[id], CacheFree(s), env)], ids + {id}, {s})
  {
    hide Delivered, ValidWorker;
    FreeWorker(m, now[id], s, env);
    WithoutBoth(links[id].worker, {s}, {s});
    assert {s} + {s} == {s};
  }

  lemma {:induction false} FreedMore(links: Links, mid: Links, now: Links, ids: set<NodeId>, gone: set<SeqId>,
                                     more: set<SeqId>)
    requires FreedWorkers(links, mid, ids, gone) && FreedWorkers(mid, now, ids, more)
    ensures FreedWorkers(links, now, ids, gone + more)
  {
    hide Without;
    forall id | id in links && id in ids
      ensures now[id].worker == Without(links[id].worker, gone + more)
    {
      WithoutBoth(links[id].worker, gone, more);
    }
  }

  /** Whom it does not reach, it does not change. */
  lemma {:induction false} FreedNobody(links: Links, ids: set<NodeId>, gone: set<SeqId>)
    requires (forall id :: id in ids ==> id !in links) || gone == {}
    ensures FreedWorkers(links, links, ids, gone)
  {
    forall id | id in links && gone == {}
      ensures Without(links[id].worker, gone) == links[id].worker
    {
      assert links[id].worker.handles - {} == links[id].worker.handles &&
        links[id].worker.pagedHandles - {} == links[id].worker.pagedHandles;
    }
  }

  lemma {:induction false} FreedMissing(links: Links, now: Links, ids: set<NodeId>, gone: set<SeqId>, id: NodeId)
    requires FreedWorkers(links, now, ids, gone) && id !in links
    ensures FreedWorkers(links, now, ids + {id}, gone)
  {
  }

  /** The links, heartbeat acks and all, after the nodes `ids` have handled a message. */
  ghost function HandleOn(m: Model, links: Links, ids: set<NodeId>, req: Request, env: NodeId -> Env): Links
    requires ValidLinks(m, links)
  {
    map id | id in links :: if id in ids then Handled(m, links[id], req, env(id)) else links[id]
  }

  lemma {:induction false} HandleNext(m: Model, links: Links, now: Links, ids: set<NodeId>, req: Request,
                                      env: NodeId -> Env, id: NodeId)
    requires ValidLinks(m, links) && now == HandleOn(m, links, ids, req, env) && id !in ids
    ensures if id in links
            then now[id] == links[id] && ValidWorker(m, links[id].worker) &&
                 now[id := Handled(m, links[id], req, env(id))] == HandleOn(m, links, ids + {id}, req, env)
            else now == HandleOn(m, links, ids + {id}, req, env)
  {
    hide Handled, ValidWorker;
  }

  lemma {:induction false} HandleNone(m: Model, links: Links, req: Request, env: NodeId -> Env)
    requires ValidLinks(m, links)
    ensures HandleOn(m, links, {}, req, env) == links
  {
    hide Handled, ValidWorker;
  }

  /** The worker frees the sequence without saying anything, not even to a heartbeat. */
  ghost predicate Silent(w: Worker, s: SeqId, env: Env) {
    s in w.handles && env.acksBefore == [] && env.acksAfter == [] && !env.leaves
  }

  lemma {:induction false} SilentFree(m: Model, l: Link, s: SeqId, env: Env)
    requires ValidWorker(m, l.worker)
    ensures var l' := Handled(m, l, CacheFree(s), env);
            l'.worker == Without(l.worker, {s}) && (l'.outbox == [] <==> l.outbox == [] && Silent(l.worker, s, env))
  {
    if s !in l.worker.handles {
      assert l.worker.handles - {s} == l.worker.handles && l.worker.pagedHandles - {s} == l.worker.pagedHandles;
    }
  }

  /**
   The sequences `gone` have been freed on the nodes `told`: a stream is empty iff it was and the
   node, if told, has freed all of them silently.
   */
  ghost predicate FreedSilently(was: Links, now: Links, told: set<NodeId>, gone: set<SeqId>,
                                env: SeqId -> NodeId -> Env) {
    now.Keys == was.Keys &&
    forall id :: id in was ==> FreedLink(was[id], now[id], if id in told then gone else {}, env, id)
  }

  ghost predicate FreedLink(l: Link, l': Link, gone: set<SeqId>, env: SeqId -> NodeId -> Env, id: NodeId) {
    l'.worker == Without(l.worker, gone) &&
    (l'.outbox == [] <==> l.outbox == [] && forall s :: s in gone ==> Silent(l.worker, s, env(s)(id)))
  }

  lemma {:induction false} FreedNothing(links: Links, told: set<NodeId>, env: SeqId -> NodeId -> Env)
    ensures FreedSilently(links, links, told, {}, env)
  {
    forall id | id in links
      ensures Without(links[id].worker, {}) == links[id].worker
    {
      assert links[id].worker.handles - {} == links[id].worker.handles &&
        links[id].worker.pagedHandles - {} == links[id].worker.pagedHandles;
    }
  }

  lemma {:induction false} FreedAnother(m: Model, was: Links, mid: Links, told: set<NodeId>, gone: set<SeqId>, s: SeqId,
                                        env: SeqId -> NodeId -> Env)
    requires FreedSilently(was, mid, told, gone, env) && ValidLinks(m, mid) && s !in gone
    ensures FreedSilently(was, HandleOn(m, mid, told, CacheFree(s), env(s)), told, gone + {s}, env)
  {
    hide Handled, ValidWorker, Silent, FreedLink;
    var now := HandleOn(m, mid, told, CacheFree(s), env(s));
    forall id | id in was
      ensures FreedLink(was[id], now[id], if id in told then gone + {s} else {}, env, id)
    {
      assert FreedLink(was[id], mid[id], if id in told then gone else {}, env, id);
      if id in told {
        assert ValidWorker(m, mid[id].worker);
        OneMoreFreed(m, was[id], mid[id], gone, s, env, id);
      }
    }
  }

  lemma {:induction false} OneMoreFreed(m: Model, l: Link, l': Link, gone: set<SeqId>, s: SeqId,
                                        env: SeqId -> NodeId -> Env, id: NodeId)
    requires FreedLink(l, l', gone, env, id) && ValidWorker(m, l'.worker) && s !in gone
    ensures FreedLink(l, Handled(m, l', CacheFree(s), env(s)(id)), gone + {s}, env, id)
  {
    hide Handled, ValidWorker;
    SilentFree(m, l', s, env(s)(id));
    WithoutBoth(l.worker, gone, {s});
    assert Silent(l'.worker, s, env(s)(id)) <==> Silent(l.worker, s, env(s)(id));
  }

  lemma {:induction false} SameHold(links: Links, links': Links)
    requires SameWorkers(links, links')
    ensures HoldNoMore(links, links', {})
  {
  }

  lemma {:induction false} FreedHold(links: Links, links': Links, ids: set<NodeId>, gone: set<SeqId>)
    requires FreedWorkers(CleanAll(links), CleanAll(links'), ids, gone)
    ensures HoldNoMore(links, links', {})
  {
    HoldClean(links, links', {});
    var was, now := CleanAll(links), CleanAll(links');
    forall id | id in was
      ensures now[id].worker.hiddenSize == was[id].worker.hiddenSize &&
              now[id].worker.handles.Keys <= was[id].worker.handles.Keys + {}
    {
    }
  }

  /** Tell those of the nodes that are registered to free the sequence. */
  method FreeOn(cluster: Cluster, ids: seq<NodeId>, s: SeqId, env: NodeId -> Env)
    requires cluster.Valid()
    modifies cluster`links
    ensures cluster.Valid() && cluster.links.Keys == old(cluster.links).Keys
    ensures FreedWorkers(CleanAll(old(cluster.links)), CleanAll(cluster.links), IdSet(ids), {s})
    ensures ValidLinks(cluster.m, CleanAll(old(cluster.links)))
    ensures Distinct(ids) ==>
      CleanAll(cluster.links) == DeliverTo(cluster.m, CleanAll(old(cluster.links)), IdSet(ids), CacheFree(s), env) &&
      cluster.links == HandleOn(cluster.m, old(cluster.links), IdSet(ids), CacheFree(s), env)
  {
    hide CleanAll, Delivered, ValidLinks, FreedWorkers, DeliverTo, Handled, HandleOn;
    ghost var was := CleanAll(cluster.links);
    CleanValid(cluster.m, cluster.links);
    FreedNobody(was, {}, {s});
    DeliverNone(cluster.m, was, CacheFree(s), env);
    HandleNone(cluster.m, cluster.links, CacheFree(s), env);
    assert IdSet(ids[..0]) == {};
    for i := 0 to |ids|
      invariant cluster.Valid() && cluster.links.Keys == old(cluster.links).Keys
      invariant FreedWorkers(was, CleanAll(cluster.links), IdSet(ids[..i]), {s})
      invariant Distinct(ids) ==>
        CleanAll(cluster.links) == DeliverTo(cluster.m, was, IdSet(ids[..i]), CacheFree(s), env) &&
        cluster.links == HandleOn(cluster.m, old(cluster.links), IdSet(ids[..i]), CacheFree(s), env)
    {
      assert IdSet(ids[..i + 1]) == IdSet(ids[..i]) + {ids[i]};
      if Distinct(ids) {
        assert ids[i] !in IdSet(ids[..i]);
        HandleNext(cluster.m, old(cluster.links), cluster.links, IdSet(ids[..i]), CacheFree(s), env, ids[i]);
      }
      if ids[i] in cluster.links {
        if Distinct(ids) {
          DeliverNext(cluster.m, was, IdSet(ids[..i]), CacheFree(s), env, ids[i]);
        }
        CleanValid(cluster.m, cluster.links);
        CleanOne(cluster.links, ids[i]);
        FreedNext(cluster.m, was, CleanAll(cluster.links), IdSet(ids[..i]), ids[i], s, env(ids[i]));
        var _ := cluster.Send(ids[i], CacheFree(s), env(ids[i]));
      } else {
        FreedMissing(was, CleanAll(cluster.links), IdSet(ids[..i]), {s}, ids[i]);
        DeliverMissing(cluster.m, was, IdSet(ids[..i]), CacheFree(s), env, ids[i]);
      }
    }
    assert ids[..|ids|] == ids;
  }

  /** What an allocation on quiet links comes to. */
  ghost predicate AllocOutcome(m: Model, links: Links, links': Links, order: seq<NodeId>, arrival: seq<NodeId>,
                               dropped: set<NodeId>, known: bool, s: SeqId, env: NodeId -> Env, back: NodeId -> Env,
                               r: Result<()>)
    requires ValidLinks(m, links)
  {
    (r.Ok? <==> !known && IdSet(order) <= Acking(links, s, env)) &&
    (r.Ok? ==> links' == AllocatedOn(m, links, IdSet(order), s)) &&
    (r.Err? && known ==> links' == links) &&
    (r.Err? && !known ==>
      FailedOn(links, links', Reached(order, links.Keys), LeftHolding(links, order, arrival, s, env),
               DrainedBy(links, order, arrival, dropped, s, env, back), s))
  }

  lemma {:induction false} OutcomeOk(m: Model, links: Links, links': Links, order: seq<NodeId>, arrival: seq<NodeId>,
                                     dropped: set<NodeId>, s: SeqId, env: NodeId -> Env, back: NodeId -> Env,
                                     r: Result<()>)
    requires ValidLinks(m, links) && IdSet(order) <= Acking(links, s, env) && r.Ok? &&
             links' == AllocatedOn(m, links, IdSet(order), s)
    ensures AllocOutcome(m, links, links', order, arrival, dropped, false, s, env, back, r)
  {
    hide ValidLinks, Acking, AllocatedOn;
  }

  lemma {:induction false} OutcomeErr(m: Model, links: Links, links': Links, order: seq<NodeId>, arrival: seq<NodeId>,
                                      dropped: set<NodeId>, s: SeqId, env: NodeId -> Env, back: NodeId -> Env,
                                      r: Result<()>)
    requires ValidLinks(m, links) && !(IdSet(order) <= Acking(links, s, env)) && r.Err?
    requires FailedOn(links, links', Reached(order, links.Keys), LeftHolding(links, order, arrival, s, env),
                      DrainedBy(links, order, arrival, dropped, s, env, back), s)
    ensures AllocOutcome(m, links, links', order, arrival, dropped, false, s, env, back, r)
  {
    hide ValidLinks, Acking, FailedOn, LeftHolding, DrainedBy, Reached;
  }

  /**
   An allocation on all nodes, with what is taken back when it fails.  `drained` says that nothing
   is left unread.
   */
  method TryAlloc(cluster: Cluster, order: seq<NodeId>, s: SeqId, env: NodeId -> Env, back: NodeId -> Env,
                  arrival: seq<NodeId>, dropped: set<NodeId>)
    returns (r: Result<()>, drained: bool)
    requires cluster.Valid() && Arrives(order, arrival)
    modifies cluster`links
    ensures cluster.Valid() && cluster.links.Keys == old(cluster.links).Keys
    ensures ValidLinks(cluster.m, CleanAll(old(cluster.links)))
    ensures !(IdSet(order) <= old(cluster.links).Keys) ==> r == Err(Pipeline) && !drained
    ensures Distinct(order) && QuietOn(CleanAll(old(cluster.links)), IdSet(order)) ==>
      AllocOutcome(cluster.m, CleanAll(old(cluster.links)), CleanAll(cluster.links), order, arrival, dropped, false,
                   s, env, back, r) &&
      (r.Err? && IdSet(order) <= old(cluster.links).Keys ==>
        (drained <==> IdSet(order) <= DrainedBy(CleanAll(old(cluster.links)), order, arrival, dropped, s, env, back)))
    ensures HoldNoMore(old(cluster.links), cluster.links, {s})
  {
    hide CleanAll, Delivered, ValidLinks, DeliverTo, ReadOn, AllocatedOn, SameWorkers, FreedWorkers, FailedOn,
      LeftHolding, ReadIds, Allocates, Reached, Allocating, Acking, Acked, DrainedBy, AllStay, HoldNoMore, HandleOn,
      AllocOutcome;
    ghost var was, ids := CleanAll(cluster.links), IdSet(order);
    ghost var good := Distinct(order) && QuietOn(was, ids);
    CleanValid(cluster.m, cluster.links);
    LeadAll(arrival, Acking(was, s, env));
    AckingKnown(was, s, env);
    r := SendAll(cluster, order, CacheAlloc(s), env);
    if r.Err? {
      drained := false;
      if good {
        StoppedShort(cluster.m, was, order, arrival, dropped, s, env, back);
        OutcomeErr(cluster.m, was, CleanAll(cluster.links), order, arrival, dropped, s, env, back, r);
      }
      return;
    }
    ghost var mid, sent := CleanAll(cluster.links), cluster.links;
    var succeeded, all;
    r, succeeded, all := CollectAcks(cluster, arrival, dropped);
    ghost var read, links := CleanAll(cluster.links), cluster.links;
    SameHold(mid, read);
    HoldClean(sent, links, {});
    HoldOn(old(cluster.links), sent, links, {s}, {});
    CleanValid(cluster.m, cluster.links);
    drained := all && AllStay(order, env) && AllStay(succeeded, back);
    if good {
      AllocSent(cluster.m, was, ids, s, env);
      SameLead(arrival, Acking(was, s, env), Acked(mid));
      ReadAllIds(arrival, dropped);
      DrainedAll(was, order, arrival, dropped, s, env, back);
    }
    if r.Ok? {
      if good {
        AllocDone(cluster.m, was, ids, s, env, read);
        OutcomeOk(cluster.m, was, read, order, arrival, dropped, s, env, back, r);
      }
    } else {
      ghost var undone := read;
      if good {
        RolledBack(cluster.m, was, order, arrival, dropped, s, env, back, read);
        undone := DeliverTo(cluster.m, read, IdSet(succeeded), CacheFree(s), back);
        DistinctFirst(arrival, |succeeded|);
        AllReachedIf(order, was.Keys);
        OutcomeErr(cluster.m, was, undone, order, arrival, dropped, s, env, back, r);
      }
      FreeOn(cluster, succeeded, s, back);
      assert good ==> CleanAll(cluster.links) == undone;
      FreedHold(links, cluster.links, IdSet(succeeded), {s});
      HoldOn(old(cluster.links), links, cluster.links, {s}, {});
    }
  }

  lemma {:induction false} DistinctFirst(ids: seq<NodeId>, n: nat)
    requires n <= |ids| && Distinct(ids)
    ensures Distinct(ids[..n])
  {
  }

  lemma {:induction false} DrainedAll(links: Links, order: seq<NodeId>, arrival: seq<NodeId>, dropped: set<NodeId>,
                                      s: SeqId, env: NodeId -> Env, back: NodeId -> Env)
    requires IdSet(order) <= links.Keys && Arrives(order, arrival)
    ensures var k := AckLead(links, arrival, s, env);
            IdSet(order) <= DrainedBy(links, order, arrival, dropped, s, env, back) <==>
            IdSet(arrival) <= ReadIds(arrival, k, dropped) && AllStay(order, env) && AllStay(arrival[..k], back)
  {
    hide Acking, ReadIds;
    var k := AckLead(links, arrival, s, env);
    assert forall id :: id in arrival[..k] ==> id in IdSet(arrival);
    assert forall id :: id in order ==> id in IdSet(order);
  }

  lemma {:induction false} AckingKnown(links: Links, s: SeqId, env: NodeId -> Env)
    ensures Acking(links, s, env) <= links.Keys
  {
  }

  lemma {:induction false} AllReachedIf(order: seq<NodeId>, known: set<NodeId>)
    ensures IdSet(order) <= known ==> Reached(order, known) == IdSet(order)
  {
    if IdSet(order) <= known { AllReached(order, known); }
  }

  lemma {:induction false} KnownOutcome(m: Model, links: Links, order: seq<NodeId>, arrival: seq<NodeId>,
                                        dropped: set<NodeId>, s: SeqId, env: NodeId -> Env, back: NodeId -> Env)
    requires ValidLinks(m, links)
    ensures AllocOutcome(m, links, links, order, arrival, dropped, true, s, env, back, Err(Pipeline))
  {
  }

  /** Nothing is left unread, whatever the order of arrival and whatever tasks are dropped. */
  ghost predicate Sure(links: Links, order: seq<NodeId>, known: bool, s: SeqId, env: NodeId -> Env) {
    known || IdSet(order) <= Acking(links, s, env) || (|order| == 1 && AllStay(order, env))
  }

  lemma {:induction false} SureOutcome(m: Model, links: Links, links': Links, order: seq<NodeId>,
                                       arrival: seq<NodeId>, dropped: set<NodeId>, known: bool, s: SeqId,
                                       env: NodeId -> Env, back: NodeId -> Env, r: Result<()>, drained: bool)
    requires ValidLinks(m, links) && IdSet(order) <= links.Keys && Arrives(order, arrival)
    requires AllocOutcome(m, links, links', order, arrival, dropped, known, s, env, back, r)
    requires known ==> drained
    requires r.Err? && !known ==>
      (drained <==> IdSet(order) <= DrainedBy(links, order, arrival, dropped, s, env, back))
    ensures r.Ok? <==> !known && IdSet(order) <= Acking(links, s, env)
    ensures Sure(links, order, known, s, env) ==> r.Ok? || drained
    ensures !known && !AllStay(order, env) ==> !(r.Ok? || drained)
  {
    hide Acking, DrainedBy, FailedOn, LeftHolding, Reached, AllocatedOn, Arrives, ValidLinks, AllStay;
    if !known {
      AckingStay(links, order, s, env);
      DrainedAll(links, order, arrival, dropped, s, env, back);
      if r.Err? && |order| == 1 && AllStay(order, env) {
        OneDrained(links, order, arrival, dropped, s, env, back);
      }
    }
  }

  lemma {:induction false} AckingStay(links: Links, order: seq<NodeId>, s: SeqId, env: NodeId -> Env)
    ensures IdSet(order) <= Acking(links, s, env) ==> AllStay(order, env)
  {
    assert forall id :: id in order ==> id in IdSet(order);
  }

  /** A serving pipeline after an allocation: one more sequence, or the same ones iff nothing is unread. */
  lemma {:induction false} TracksOutcome(m: Model, parts: seq<LayerAssignment>, hiddenSize: nat, links: Links,
                                         now: Links, paged: bool, seen: map<SeqId, seq<nat>>, order: seq<NodeId>,
                                         arrival: seq<NodeId>, dropped: set<NodeId>, s: SeqId, env: NodeId -> Env,
                                         back: NodeId -> Env, r: Result<()>)
    requires order == NodeIds(parts) && Tracks(m, parts, hiddenSize, links, paged, seen) && s !in seen
    requires ValidLinks(m, links) && ValidLinks(m, now) && IdSet(order) <= links.Keys
    requires AllocOutcome(m, links, now, order, arrival, dropped, false, s, env, back, r)
    ensures r.Ok? ==> Tracks(m, parts, hiddenSize, now, paged, seen[s := []])
    ensures r.Err? ==>
      (Tracks(m, parts, hiddenSize, now, paged, seen) <==>
         IdSet(order) <= DrainedBy(links, order, arrival, dropped, s, env, back))
  {
    hide Tracks, FailedOn, LeftHolding, DrainedBy, Reached, Acking, AllocatedOn, ValidLinks;
    if r.Ok? {
      CanAll(links, order, s, env);
      TracksAlloc(m, parts, hiddenSize, links, paged, seen, s);
    } else {
      AllReached(order, links.Keys);
      TracksFailed(m, parts, hiddenSize, links, now, paged, seen, LeftHolding(links, order, arrival, s, env),
                   DrainedBy(links, order, arrival, dropped, s, env, back), s);
    }
  }

  lemma {:induction false} CanAll(links: Links, order: seq<NodeId>, s: SeqId, env: NodeId -> Env)
    requires IdSet(order) <= Acking(links, s, env)
    ensures forall id :: id in IdSet(order) ==> id in links && s !in links[id].worker.handles
  {
  }

  lemma {:induction false} LeadAll(ids: seq<NodeId>, good: set<NodeId>)
    ensures Lead(ids, good) == |ids| <==> IdSet(ids) <= good
  {
    var k := Lead(ids, good);
    if k < |ids| { assert ids[k] in IdSet(ids); }
  }

  lemma {:induction false} TracksQuiet(m: Model, parts: seq<LayerAssignment>, hiddenSize: nat, links: Links,
                                       paged: bool, seen: map<SeqId, seq<nat>>)
    requires Tracks(m, parts, hiddenSize, links, paged, seen)
    ensures Distinct(NodeIds(parts)) && IdSet(NodeIds(parts)) <= links.Keys && QuietOn(links, IdSet(NodeIds(parts)))
  {
    hide HeldFor, Tiles, ValidLinks;
    forall id | id in IdSet(NodeIds(parts))
      ensures id in links && links[id].outbox == []
    {
      var k :| 0 <= k < |parts| && NodeIds(parts)[k] == id;
      assert QuietAt(parts[k], links);
    }
  }

  /** The workers of `ids` that are among `ready` do not announce their leave. */
  predicate StayIn(ids: seq<NodeId>, ready: set<NodeId>, env: NodeId -> Env) {
    forall id :: id in ids && id in ready ==> !env(id).leaves
  }

  lemma {:induction false} ToldStay(order: seq<NodeId>, told: seq<NodeId>, ready: set<NodeId>, env: NodeId -> Env)
    requires IdSet(told) == IdSet(order) * ready
    ensures AllStay(told, env) <==> StayIn(order, ready, env)
  {
    assert forall id :: id in told <==> id in IdSet(told);
  }

  class DistributedPipeline {
    const order: seq<NodeId>
    const hiddenSize: nat
    const totalLayers: nat
    var allocatedSeqs: set<SeqId>

    constructor (order: seq<NodeId>, hiddenSize: nat, totalLayers: nat)
      ensures this.order == order && this.hiddenSize == hiddenSize && this.totalLayers == totalLayers &&
              allocatedSeqs == {}
    {
      this.order := order;
      this.hiddenSize := hiddenSize;
      this.totalLayers := totalLayers;
      allocatedSeqs := {};
    }

    /** The pipeline is laid out by `parts`, and the caches of the tracked sequences are those of the ids seen. */
    ghost predicate Serving(cluster: Cluster, parts: seq<LayerAssignment>, paged: bool, seen: map<SeqId, seq<nat>>)
      reads this, cluster
    {
      order == NodeIds(parts) && seen.Keys <= allocatedSeqs &&
      Tracks(cluster.m, parts, hiddenSize, CleanAll(cluster.links), paged, seen)
    }

    /**
     `alloc_cache`.  On links without leftovers it succeeds iff the sequence is new and every
     worker can allocate and does not announce its leave; then every worker holds it, empty, in
     both maps.  When it fails, the workers left holding it are those that allocated and were not
     taken back, and a serving pipeline goes on serving iff nothing is left unread.
     */
    method AllocCache(cluster: Cluster, s: SeqId, env: NodeId -> Env, back: NodeId -> Env, arrival: seq<NodeId>,
                      dropped: set<NodeId>, ghost parts: seq<LayerAssignment>, ghost paged: bool,
                        ghost seen: map<SeqId, seq<nat>>)
      returns (r: Result<()>, drained: bool)
      requires cluster.Valid() && Arrives(order, arrival)
      modifies this`allocatedSeqs, cluster`links
      ensures cluster.Valid() && cluster.links.Keys == old(cluster.links).Keys
      ensures ValidLinks(cluster.m, CleanAll(old(cluster.links)))
      ensures s in old(allocatedSeqs) || !(IdSet(order) <= old(cluster.links).Keys) ==> r == Err(Pipeline)
      ensures s !in old(allocatedSeqs) && !(IdSet(order) <= old(cluster.links).Keys) ==> !drained
      ensures allocatedSeqs == if r.Ok? then old(allocatedSeqs) + {s} else old(allocatedSeqs)
      ensures Distinct(order) && QuietOn(CleanAll(old(cluster.links)), IdSet(order)) ==>
        AllocOutcome(cluster.m, CleanAll(old(cluster.links)), CleanAll(cluster.links), order, arrival, dropped,
                     s in old(allocatedSeqs), s, env, back, r)
      ensures old(Serving(cluster, parts, paged, seen)) && r.Ok? ==> Serving(cluster, parts, paged, seen[s := []])
      ensures old(Serving(cluster, parts, paged, seen)) && r.Err? ==>
        (Serving(cluster, parts, paged, seen) <==> drained)
      ensures s in old(allocatedSeqs) ==> r == Err(Pipeline) && drained && cluster.links == old(cluster.links)
      ensures Distinct(order) && QuietOn(CleanAll(old(cluster.links)), IdSet(order)) && s !in old(allocatedSeqs) &&
              IdSet(order) <= old(cluster.links).Keys && r.Err? ==>
        (drained <==> IdSet(order) <= DrainedBy(CleanAll(old(cluster.links)), order, arrival, dropped, s, env, back))
      ensures HoldNoMore(old(cluster.links), cluster.links, {s})
    {
      hide CleanAll, ValidLinks, Tracks, AllocOutcome, DrainedBy, HoldNoMore;
      ghost var was := CleanAll(cluster.links);
      CleanValid(cluster.m, cluster.links);
      if s in allocatedSeqs {
        HoldSame(cluster.links, {s});
        KnownOutcome(cluster.m, was, order, arrival, dropped, s, env, back);
        return Err(Pipeline), true;
      }
      r, drained := TryAlloc(cluster, order, s, env, back, arrival, dropped);
      CleanValid(cluster.m, cluster.links);
      if r.Ok? { allocatedSeqs := allocatedSeqs + {s}; }
      if order == NodeIds(parts) && s !in seen && Tracks(cluster.m, parts, hiddenSize, was, paged, seen) {
        TracksQuiet(cluster.m, parts, hiddenSize, was, paged, seen);
        TracksOutcome(cluster.m, parts, hiddenSize, was, CleanAll(cluster.links), paged, seen, order, arrival,
                      dropped, s, env, back, r);
      }
    }

    /**
     `forward`.  A sequence without a cache is refused; otherwise the stages decide.  On a
     serving pipeline the logits are the reference logits of all ids the sequence has then seen,
     if every stage computes and none announces its leave; the other sequences are served on iff
     the pass reaches no stage that does.
     */
    method Forward(cluster: Cluster, s: SeqId, ids: seq<nat>, ps: seq<nat>, envs: seq<Env>,
                   ghost parts: seq<LayerAssignment>, ghost seen: map<SeqId, seq<nat>>) returns (r: Result<Row>)
      requires cluster.Valid() && |order| <= |envs|
      modifies cluster`links
      ensures cluster.Valid() && cluster.links.Keys == old(cluster.links).Keys
      ensures ValidLinks(cluster.m, CleanAll(old(cluster.links)))
      ensures s !in allocatedSeqs ==> r == Err(Pipeline) && cluster.links == old(cluster.links)
      ensures s in allocatedSeqs ==>
        StageResult(r, CleanAll(cluster.links))
          == Stages(cluster.m, order, hiddenSize, Single(s, ps), WireIds(ids), envs, 0, CleanAll(old(cluster.links)))
      ensures old(Serving(cluster, parts, false, seen)) && s in seen && ids != [] &&
              ps == Positions(|seen[s]|, |ids|) ==>
        (r.Ok? <==> AllAnswer(envs, 0, |order|)) &&
        (r.Ok? ==>
          r.value == ReferenceLogits(cluster.m, seen[s] + ids) &&
          Serving(cluster, parts, false, seen[s := seen[s] + ids])) &&
        (Serving(cluster, parts, false, Outside(seen, Single(s, ps))) <==> !LeaveMet(envs, 0, |order|))
      ensures old(Serving(cluster, parts, false, seen)) && ps != [] && s in allocatedSeqs ==>
        (Serving(cluster, parts, false, Outside(seen, Single(s, ps))) <==>
           !MetLeave(cluster.m, order, hiddenSize, Single(s, ps), WireIds(ids), envs, 0, CleanAll(old(cluster.links))))
    {
      hide CleanAll, ValidLinks, Stages, Tracks, AllAnswer, ReferenceLogits, MetLeave, LeaveMet;
      CleanValid(cluster.m, cluster.links);
      if order == NodeIds(parts) && Tracks(cluster.m, parts, hiddenSize, CleanAll(cluster.links), false, seen) &&
      ps != [] {
        TracksFewer(cluster.m, parts, hiddenSize, CleanAll(cluster.links), false, seen, Single(s, ps));
        TracksOutside(cluster.m, parts, hiddenSize, CleanAll(cluster.links), Single(s, ps), WireIds(ids), envs, seen);
      }
      if s !in allocatedSeqs { return Err(Pipeline); }
      ghost var was := CleanAll(cluster.links);
      r := RunStages(cluster, order, hiddenSize, Single(s, ps), ids, envs);
      if order == NodeIds(parts) && Tracks(cluster.m, parts, hiddenSize, was, false, seen) && s in seen && ids != [] &&
         ps == Positions(|seen[s]|, |ids|) {
        SinglePass(cluster.m, parts, hiddenSize, was, s, ids, envs, seen);
      }
    }

    /**
     `batched_forward`: refused if a sequence has no cache; otherwise the tail's logits are split
     evenly.  On a serving pipeline every sequence gets its own reference logits iff every stage
     computes and none announces its leave; the sequences outside the batch are served on iff the
     pass reaches no stage that does.
     */
    method BatchedForward(cluster: Cluster, metas: seq<SequenceMeta>, ids: seq<nat>, envs: seq<Env>,
                          ghost parts: seq<LayerAssignment>, ghost seen: map<SeqId, seq<nat>>,
                          ghost idss: seq<seq<nat>>, ghost seen': map<SeqId, seq<nat>>, ghost v: nat)
      returns (r: Result<seq<Row>>)
      requires cluster.Valid() && |order| <= |envs|
      modifies cluster`links
      ensures cluster.Valid() && cluster.links.Keys == old(cluster.links).Keys
      ensures r.Ok? ==> |r.value| == |metas|
      ensures (exists i :: 0 <= i < |metas| && metas[i].seqId !in allocatedSeqs) ==>
        r == Err(Pipeline) && cluster.links == old(cluster.links)
      ensures old(Serving(cluster, parts, true, seen)) &&
              BatchContinues(cluster.m, metas, ids, seen, idss, seen', v) ==>
        (r.Ok? <==> AllAnswer(envs, 0, |order|)) &&
        (r.Ok? ==>
          r.value == ReferenceAll(cluster.m, seen, Batch(metas), idss) && Serving(cluster, parts, true, seen')) &&
        (Serving(cluster, parts, true, Outside(seen, Batch(metas))) <==> !LeaveMet(envs, 0, |order|))
      ensures old(Serving(cluster, parts, true, seen)) && Sound(Batch(metas)) &&
              (forall i :: 0 <= i < |metas| ==> metas[i].seqId in allocatedSeqs) ==>
        (Serving(cluster, parts, true, Outside(seen, Batch(metas))) <==>
           !MetLeave(cluster.m, order, hiddenSize, Batch(metas), WireIds(ids), envs, 0, CleanAll(old(cluster.links))))
      ensures old(Serving(cluster, parts, true, seen)) && Sound(Batch(metas)) ==>
        (Serving(cluster, parts, true, Outside(seen, Batch(metas))) <==> Quiet(parts, CleanAll(cluster.links))) &&
        forall s :: s in seen ==> HeldByAll(parts, CleanAll(cluster.links), true, s)
      ensures HoldNoMore(old(cluster.links), cluster.links, {})
    {
      hide CleanAll, ValidLinks, Stages, Tracks, AllAnswer, ReferenceLogits, SplitLogits, Concat, HeldByAll, Sound,
        MetLeave, LeaveMet, HoldNoMore, Quiet;
      HoldSame(cluster.links, {});
      CleanValid(cluster.m, cluster.links);
      if order == NodeIds(parts) && Tracks(cluster.m, parts, hiddenSize, CleanAll(cluster.links), true, seen) &&
      Sound(Batch(metas)) {
        TracksFewer(cluster.m, parts, hiddenSize, CleanAll(cluster.links), true, seen, Batch(metas));
        TracksOutside(cluster.m, parts, hiddenSize, CleanAll(cluster.links), Batch(metas), WireIds(ids), envs, seen);
      }
      for i := 0 to |metas|
        invariant forall k :: 0 <= k < i ==> metas[k].seqId in allocatedSeqs
      {
        if metas[i].seqId !in allocatedSeqs {
          assert Batch(metas).SeqAt(i) == metas[i].seqId;
          return Err(Pipeline);
        }
      }
      ghost var was := CleanAll(cluster.links);
      var flat := RunStages(cluster, order, hiddenSize, Batch(metas), ids, envs);
      r := if flat.Ok? then Ok(SplitLogits(flat.value, |metas|)) else Err(flat.error);
      if order == NodeIds(parts) && Tracks(cluster.m, parts, hiddenSize, was, true, seen) &&
         BatchContinues(cluster.m, metas, ids, seen, idss, seen', v) {
        TracksPass(cluster.m, parts, hiddenSize, was, Batch(metas), idss, envs, seen, seen');
        ReferencesLong(cluster.m, seen, Batch(metas), idss, v);
        SplitUndoesFlatten(ReferenceAll(cluster.m, seen, Batch(metas), idss), v);
      }
    }

    /**
     `free_cache_best_effort`: forget the sequence and free it on the workers that are ready, and
     on no other.  The others are served on iff none of those announces its leave.
     */
    method FreeBestEffort(cluster: Cluster, s: SeqId, ready: set<NodeId>, env: NodeId -> Env,
                          ghost parts: seq<LayerAssignment>, ghost paged: bool, ghost seen: map<SeqId, seq<nat>>)
      requires cluster.Valid()
      modifies this`allocatedSeqs, cluster`links
      ensures cluster.Valid() && cluster.links.Keys == old(cluster.links).Keys &&
              allocatedSeqs == old(allocatedSeqs) - {s}
      ensures FreedWorkers(CleanAll(old(cluster.links)), CleanAll(cluster.links), IdSet(order) * ready, {s})
      ensures Distinct(order) ==>
        cluster.links == HandleOn(cluster.m, old(cluster.links), IdSet(order) * ready, CacheFree(s), env)
      ensures old(Serving(cluster, parts, paged, seen)) && old(HeldByAll(parts, CleanAll(cluster.links), paged, s)) ==>
        (Serving(cluster, parts, paged, seen - {s}) <==> StayIn(order, ready, env)) &&
        HeldOn(parts, CleanAll(old(cluster.links)), CleanAll(cluster.links), paged, s)
    {
      hide CleanAll, ValidLinks, FreedWorkers, Tracks, DeliverTo, HeldByAll, HeldOn, HandleOn;
      ghost var was := CleanAll(cluster.links);
      allocatedSeqs := allocatedSeqs - {s};
      var told := [];
      for i := 0 to |order|
        invariant IdSet(told) == IdSet(order[..i]) * ready && (Distinct(order) ==> Distinct(told))
      {
        assert IdSet(order[..i + 1]) == IdSet(order[..i]) + {order[i]};
        if order[i] in ready {
          if Distinct(order) {
            assert order[i] !in IdSet(order[..i]);
            assert order[i] !in told;
          }
          assert IdSet(told + [order[i]]) == IdSet(told) + {order[i]};
          told := told + [order[i]];
        }
      }
      assert order[..|order|] == order;
      FreeOn(cluster, told, s, env);
      if order == NodeIds(parts) && Tracks(cluster.m, parts, hiddenSize, was, paged, seen) &&
      HeldByAll(parts, was, paged, s) {
        TracksQuiet(cluster.m, parts, hiddenSize, was, paged, seen);
        TracksFree(cluster.m, parts, hiddenSize, was, paged, seen, s, told, env);
        ToldStay(order, told, ready, env);
      }
    }

    /** `abort_all_sequences`: forget every sequence and free them all on the workers that are ready. */
    method AbortAll(cluster: Cluster, ready: set<NodeId>, env: SeqId -> NodeId -> Env) returns (aborted: seq<SeqId>)
      requires cluster.Valid()
      modifies this`allocatedSeqs, cluster`links
      ensures cluster.Valid() && cluster.links.Keys == old(cluster.links).Keys
      ensures allocatedSeqs == {} && forall s :: s in aborted <==> s in old(allocatedSeqs)
      ensures FreedWorkers(CleanAll(old(cluster.links)), CleanAll(cluster.links), IdSet(order) * ready,
                           old(allocatedSeqs))
      ensures Distinct(order) ==>
        FreedSilently(old(cluster.links), cluster.links, IdSet(order) * ready, old(allocatedSeqs), env)
    {
      hide CleanAll, ValidLinks, FreedWorkers, FreedSilently, HandleOn;
      aborted := [];
      var rest := allocatedSeqs;
      allocatedSeqs := {};
      ghost var was, all := CleanAll(cluster.links), rest;
      FreedNobody(was, IdSet(order) * ready, {});
      FreedNothing(cluster.links, IdSet(order) * ready, env);
      assert all - rest == {};
      while rest != {}
        invariant cluster.Valid() && cluster.links.Keys == old(cluster.links).Keys
        invariant allocatedSeqs == {} && rest <= all && forall s :: s in aborted <==> s in all - rest
        invariant Distinct(order) ==>
          FreedSilently(old(cluster.links), cluster.links, IdSet(order) * ready, all - rest, env)
        invariant FreedWorkers(was, CleanAll(cluster.links), IdSet(order) * ready, all - rest)
        decreases |rest|
      {
        var s :| s in rest;
        ghost var mid := CleanAll(cluster.links);
        if Distinct(order) {
          FreedAnother(cluster.m, old(cluster.links), cluster.links, IdSet(order) * ready, all - rest, s, env);
        }
        FreeBestEffort(cluster, s, ready, env(s), [], false, map[]);
        FreedMore(was, mid, CleanAll(cluster.links), IdSet(order) * ready, all - rest, {s});
        assert all - (rest - {s}) == all - rest + {s};
        rest := rest - {s};
        aborted := aborted + [s];
      }
      assert all - {} == all;
    }

    /**
     `free_cache`: forget the sequence, then tell every worker; the others are served on iff none
     announces its leave.
     */
    method FreeCache(cluster: Cluster, s: SeqId, env: NodeId -> Env, ghost parts: seq<LayerAssignment>,
                     ghost paged: bool, ghost seen: map<SeqId, seq<nat>>) returns (r: Result<()>)
      requires cluster.Valid()
      modifies this`allocatedSeqs, cluster`links
      ensures cluster.Valid() && cluster.links.Keys == old(cluster.links).Keys
      ensures ValidLinks(cluster.m, CleanAll(old(cluster.links)))
      ensures r.Ok? <==> s in old(allocatedSeqs) && IdSet(order) <= old(cluster.links).Keys
      ensures r.Err? ==> r.error == Pipeline
      ensures allocatedSeqs == old(allocatedSeqs) - {s}
      ensures r.Ok? && Distinct(order) ==>
        CleanAll(cluster.links) ==
          DeliverTo(cluster.m, CleanAll(old(cluster.links)), IdSet(order), CacheFree(s), env) &&
        cluster.links == HandleOn(cluster.m, old(cluster.links), IdSet(order), CacheFree(s), env)
      ensures s !in old(allocatedSeqs) ==> cluster.links == old(cluster.links)
      ensures HoldNoMore(old(cluster.links), cluster.links, {})
      ensures old(Serving(cluster, parts, paged, seen)) && s in seen ==>
        r.Ok? && (Serving(cluster, parts, paged, seen - {s}) <==> AllStay(order, env)) &&
        HeldOn(parts, CleanAll(old(cluster.links)), CleanAll(cluster.links), paged, s)
    {
      hide CleanAll, DeliverTo, ValidLinks, Tracks, HeldOn, HoldNoMore, HandleOn;
      ghost var was := CleanAll(cluster.links);
      HoldSame(cluster.links, {});
      CleanValid(cluster.m, cluster.links);
      if s !in allocatedSeqs { return Err(Pipeline); }
      allocatedSeqs := allocatedSeqs - {s};
      r := SendAll(cluster, order, CacheFree(s), env);
      if order == NodeIds(parts) && Tracks(cluster.m, parts, hiddenSize, was, paged, seen) && s in seen {
        TracksQuiet(cluster.m, parts, hiddenSize, was, paged, seen);
        TracksFewer(cluster.m, parts, hiddenSize, was, paged, seen, Batch([]));
        TracksFree(cluster.m, parts, hiddenSize, was, paged, seen, s, order, env);
      }
    }
  }

  /** `DistributedPipeline::new`: refuses everything but non-empty contiguous ranges from layer 0. */
  method NewPipeline(parts: seq<LayerAssignment>, hiddenSize: nat) returns (r: Result<DistributedPipeline>)
    ensures r.Ok? <==> parts != [] && Contiguous(parts, 0)
    ensures r.Ok? ==>
      fresh(r.value) && r.value.order == NodeIds(parts) && r.value.hiddenSize == hiddenSize &&
      r.value.allocatedSeqs == {} &&
      Tiles(parts, r.value.totalLayers)
    ensures r.Err? ==> r.error == Pipeline
  {
    var total := CheckAssignments(parts);
    if total.Err? { return Err(total.error); }
    var p := new DistributedPipeline(NodeIds(parts), hiddenSize, total.value);
    r := Ok(p);
  }
}
