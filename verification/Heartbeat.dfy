/**
 The heartbeat tracker: the counter of a worker against the history of accepted acks and of
 rounds, over any run of calls.
 */
module Heartbeats {
  import opened Core
  import opened PipelineLayout
  import opened Registry
  import opened Sorting
  import opened Transformer
  import C = Coordination
  import P = DistributedPipelines
  import W = WorkerProtocol

  /** What has happened to the counters: an accepted ack, or a round of increments. */
  datatype Event = Acked(id: NodeId) | Round(ids: seq<NodeId>)

  /** How often a round lists the worker. */
  function Listed(e: Event, id: NodeId): nat {
    if e.Round? then multiset(e.ids)[id] else 0
  }

  /** How often rounds have listed the worker since its last accepted ack, or since the start. */
  function MissedSince(history: seq<Event>, id: NodeId): nat {
    if history == [] then 0
    else
      var last, before := history[|history| - 1], history[..|history| - 1];
      if last == Acked(id) then 0
      else MissedSince(before, id) + Listed(last, id)
  }

  lemma {:induction false} MissedNext(history: seq<Event>, e: Event, id: NodeId)
    ensures MissedSince(history + [e], id) ==
      if e == Acked(id) then 0 else MissedSince(history, id) + Listed(e, id)
  {
    assert (history + [e])[..|history|] == history;
  }

  function CountIn(counts: map<NodeId, nat>, id: NodeId): nat {
    if id in counts then counts[id] else 0
  }

  class HeartbeatTracker {
    var pendingNonce: Option<nat>
    var missedCounts: map<NodeId, nat>
    ghost var history: seq<Event>

    /** The counters are what the history says. */
    ghost predicate Valid()
      reads this
    {
      forall id :: CountIn(missedCounts, id) == MissedSince(history, id)
    }

    constructor ()
      ensures Valid() && history == [] && pendingNonce == None
    {
      pendingNonce := None;
      missedCounts := map[];
      history := [];
    }

    method MissedCount(id: NodeId) returns (n: nat)
      requires Valid()
      ensures n == MissedSince(history, id)
    {
      n := CountIn(missedCounts, id);
    }

    method SetPendingNonce(nonce: nat)
      requires Valid()
      modifies this`pendingNonce
      ensures Valid() && pendingNonce == Some(nonce)
    {
      pendingNonce := Some(nonce);
    }

    /** An ack counts iff its worker is known and not dead and it echoes the pending nonce. */
    method ProcessAck(registry: PeerRegistry, id: NodeId, nonce: nat, freeBlocks: nat) returns (ok: bool)
      requires Valid() && registry.Valid()
      modifies this`missedCounts, this`history, registry
      ensures Valid() && registry.Valid()
      ensures ok <==>
        id in old(registry.workers) && old(registry.workers)[id].status != Dead && pendingNonce == Some(nonce)
      ensures history == if ok then old(history) + [Acked(id)] else old(history)
      ensures registry.workers ==
        if ok then old(registry.workers)[id := old(registry.workers)[id].(freeBlocks := freeBlocks)]
          else old(registry.workers)
    {
      if id !in registry.workers || registry.workers[id].status == Dead { return false; }
      if pendingNonce != Some(nonce) { return false; }
      forall g
        ensures MissedSince(history + [Acked(id)], g) == if g == id then 0 else MissedSince(history, g)
      {
        MissedNext(history, Acked(id), g);
      }
      missedCounts := missedCounts[id := 0];
      history := history + [Acked(id)];
      registry.RecordHeartbeat(id, freeBlocks);
      ok := true;
    }

    /** A round: one more each time a worker is listed, and those that have reached the limit are reported. */
    method IncrementMissed(ids: seq<NodeId>, maxMissed: nat) returns (timedOut: seq<NodeId>)
      requires Valid()
      modifies this`missedCounts, this`history
      ensures Valid() && history == old(history) + [Round(ids)]
      ensures forall id :: id in timedOut <==> id in ids && MissedSince(history, id) >= maxMissed
    {
      hide MissedSince;
      timedOut := [];
      for i := 0 to |ids|
        invariant history == old(history)
        invariant forall id :: CountIn(missedCounts, id) == MissedSince(history, id) + multiset(ids[..i])[id]
        invariant forall id :: id in timedOut <==>
          id in ids[..i] && MissedSince(history, id) + multiset(ids[..i])[id] >= maxMissed
      {
        var id := ids[i];
        assert ids[..i + 1] == ids[..i] + [id];
        var count := CountIn(missedCounts, id) + 1;
        missedCounts := missedCounts[id := count];
        if count >= maxMissed { timedOut := timedOut + [id]; }
      }
      assert ids[..|ids|] == ids;
      forall id
        ensures MissedSince(history + [Round(ids)], id) == MissedSince(history, id) + multiset(ids)[id]
      {
        MissedNext(history, Round(ids), id);
      }
      history := history + [Round(ids)];
    }
  }

  lemma {:induction false} ListedOnce(ids: seq<NodeId>, id: NodeId)
    requires Distinct(ids)
    ensures multiset(ids)[id] <= 1
  {
    if ids != [] {
      var n := |ids| - 1;
      assert ids == ids[..n] + [ids[n]];
      ListedOnce(ids[..n], id);
      if ids[n] == id { assert id !in ids[..n]; }
    }
  }

  // ----- over runs -----

  ghost predicate NoAck(events: seq<Event>, id: NodeId) {
    forall k :: 0 <= k < |events| ==> events[k] != Acked(id)
  }

  function TimesListed(events: seq<Event>, id: NodeId): nat {
    if events == [] then 0
    else TimesListed(events[..|events| - 1], id) + Listed(events[|events| - 1], id)
  }

  /** A silent worker's count grows by one each time it is listed: after `limit` of them it is reported. */
  lemma {:induction false} SilenceCounts(history: seq<Event>, silence: seq<Event>, id: NodeId)
    requires NoAck(silence, id)
    ensures MissedSince(history + silence, id) == MissedSince(history, id) + TimesListed(silence, id)
    decreases |silence|
  {
    if silence == [] {
      assert history + silence == history;
    } else {
      var n := |silence| - 1;
      SilenceCounts(history, silence[..n], id);
      MissedNext(history + silence[..n], silence[n], id);
      assert history + silence == history + silence[..n] + [silence[n]];
    }
  }

  /** Between two rounds that list the worker there is always an accepted ack. */
  ghost predicate AckedInEveryRound(history: seq<Event>, id: NodeId) {
    forall i, j :: 0 <= i < j < |history| && Listed(history[i], id) > 0 && Listed(history[j], id) > 0 ==>
      exists k :: i < k < j && history[k] == Acked(id)
  }

  /** Every round that lists the worker is followed by an accepted ack. */
  ghost predicate AllAnswered(history: seq<Event>, id: NodeId) {
    forall i :: 0 <= i < |history| && Listed(history[i], id) > 0 ==>
      exists k :: i < k < |history| && history[k] == Acked(id)
  }

  lemma {:induction false} AnsweredCountsZero(history: seq<Event>, id: NodeId)
    requires AllAnswered(history, id)
    ensures MissedSince(history, id) == 0
    decreases |history|
  {
    if history != [] && history[|history| - 1] != Acked(id) {
      var n := |history| - 1;
      assert Listed(history[n], id) == 0;
      forall i | 0 <= i < n && Listed(history[..n][i], id) > 0
        ensures exists k :: i < k < n && history[..n][k] == Acked(id)
      {
        assert Listed(history[i], id) > 0;
        var k :| i < k < |history| && history[k] == Acked(id);
        assert history[..n][k] == Acked(id);
      }
      AnsweredCountsZero(history[..n], id);
    }
  }

  lemma {:induction false} AckedBefore(history: seq<Event>, n: nat, id: NodeId)
    requires AckedInEveryRound(history, id) && n < |history|
    ensures AckedInEveryRound(history[..n], id) && (Listed(history[n], id) > 0 ==> AllAnswered(history[..n], id))
  {
    hide Listed;
    var before := history[..n];
    forall i, j | 0 <= i < j <= n && Listed(history[i], id) > 0 && Listed(history[j], id) > 0
      ensures exists k :: i < k < j && before[k] == Acked(id)
    {
      var k :| i < k < j && history[k] == Acked(id);
      assert before[k] == Acked(id);
    }
  }

  /**
   A worker acked in every round never counts beyond what one round adds.  When rounds list it once,
   it is never reported with a limit of 2 or more.
   */
  lemma {:induction false} AckedStaysLow(history: seq<Event>, id: NodeId, most: nat)
    requires AckedInEveryRound(history, id) && forall k :: 0 <= k < |history| ==> Listed(history[k], id) <= most
    ensures MissedSince(history, id) <= most
    decreases |history|
  {
    hide Listed, AckedInEveryRound, AllAnswered;
    if history != [] {
      var n := |history| - 1;
      AckedBefore(history, n, id);
      if Listed(history[n], id) > 0 {
        AnsweredCountsZero(history[..n], id);
      } else {
        AckedStaysLow(history[..n], id, most);
      }
    }
  }

  // ----- one heartbeat round -----

  /** What the poll of a worker's connection finds. */
  datatype Poll = Ack(nonce: nat, freeBlocks: nat) | LeaveIntent | Nothing

  /** The poll takes the first message of the stream, whatever it is. */
  function PollOf(outbox: seq<W.Reply>): Poll {
    if outbox == [] then Nothing
    else
      match outbox[0]
      case HeartbeatAck(beat) => Ack(beat.nonce, beat.freeBlocks)
      case LeaveIntent => LeaveIntent
      case _ => Nothing
  }

  /** What the round finds out about a worker. */
  function Found(links: P.Links, workers: Workers, id: NodeId): Poll {
    if id in workers && workers[id].Serving() && id in links then PollOf(links[id].outbox) else Nothing
  }

  /** The worker is credited with an answer to the pending heartbeat. */
  predicate Credited(poll: Poll, pending: Option<nat>) {
    poll.Ack? && pending == Some(poll.nonce)
  }

  /** What becomes of a worker's entry. */
  function HeardAs(e: Entry, poll: Poll, pending: Option<nat>): Entry {
    if Credited(poll, pending) then e.(freeBlocks := poll.freeBlocks)
    else if poll.LeaveIntent? && e.status == Ready then e.(status := Draining)
    else e
  }

  /** The streams when one message of each serving worker has been taken. */
  ghost function PolledLinks(links: P.Links, ids: seq<NodeId>): P.Links {
    map id | id in links ::
      if id in ids then P.Link(links[id].worker, if links[id].outbox == [] then [] else links[id].outbox[1..])
        else links[id]
  }

  lemma {:induction false} PolledNext(m: Model, links: P.Links, ids: seq<NodeId>, n: nat)
    requires n < |ids| && Distinct(ids)
    ensures var now, id := PolledLinks(links, ids[..n]), ids[n];
            PolledLinks(links, ids[..n + 1]) ==
            if id in links
            then assert id in now;
            now[id := P.Link(now[id].worker, if now[id].outbox == [] then [] else now[id].outbox[1..])]
            else now
    ensures ids[n] in links ==> PolledLinks(links, ids[..n])[ids[n]] == links[ids[n]]
    ensures P.ValidLinks(m, links) ==> P.ValidLinks(m, PolledLinks(links, ids[..n + 1]))
  {
    hide W.ValidWorker;
    assert ids[..n + 1] == ids[..n] + [ids[n]] && ids[n] !in ids[..n];
  }

  /** One message is taken from each of the workers. */
  method PollAll(cluster: P.Cluster, ids: seq<NodeId>) returns (polls: seq<Poll>)
    requires cluster.Valid() && Distinct(ids)
    modifies cluster`links
    ensures cluster.Valid() && cluster.links == PolledLinks(old(cluster.links), ids)
    ensures |polls| == |ids|
    ensures forall i :: 0 <= i < |ids| ==>
      polls[i] == if ids[i] in old(cluster.links) then PollOf(old(cluster.links)[ids[i]].outbox) else Nothing
  {
    hide P.ValidLinks, PolledLinks, PollOf;
    ghost var was := cluster.links;
    polls := [];
    PolledNone(was);
    assert ids[..0] == [];
    for n := 0 to |ids|
      invariant cluster.Valid() && cluster.links == PolledLinks(was, ids[..n]) && |polls| == n
      invariant forall i :: 0 <= i < n ==> polls[i] == if ids[i] in was then PollOf(was[ids[i]].outbox) else Nothing
    {
      var id := ids[n];
      PolledNext(cluster.m, was, ids, n);
      PolledKeys(was, ids[..n]);
      if id in cluster.links {
        var l := cluster.links[id];
        polls := polls + [PollOf(l.outbox)];
        cluster.links := cluster.links[id := P.Link(l.worker, if l.outbox == [] then [] else l.outbox[1..])];
      } else {
        polls := polls + [Nothing];
      }
    }
    assert ids[..|ids|] == ids;
  }

  lemma {:induction false} PolledNone(links: P.Links)
    ensures PolledLinks(links, []) == links
  {
  }

  lemma {:induction false} PolledKeys(links: P.Links, ids: seq<NodeId>)
    ensures PolledLinks(links, ids).Keys == links.Keys
  {
  }

  /** The registry when the first n polls have been seen to. */
  ghost predicate SeenEntries(ids: seq<NodeId>, polls: seq<Poll>, n: nat, was: Workers, now: Workers,
                              pending: Option<nat>)
    requires |polls| == |ids| && n <= |ids|
  {
    now.Keys == was.Keys &&
    (forall i :: 0 <= i < n && ids[i] in was ==> now[ids[i]] == HeardAs(was[ids[i]], polls[i], pending)) &&
    (forall id :: id in was && id !in ids[..n] ==> now[id] == was[id])
  }

  /** The counts when the first n polls have been seen to. */
  ghost predicate SeenCounts(ids: seq<NodeId>, polls: seq<Poll>, n: nat, pending: Option<nat>, before: seq<Event>,
                             after: seq<Event>)
    requires |polls| == |ids| && n <= |ids|
  {
    (forall i :: 0 <= i < n ==>
      MissedSince(after, ids[i]) == if Credited(polls[i], pending) then 0 else MissedSince(before, ids[i])) &&
    (forall id :: id !in ids[..n] ==> MissedSince(after, id) == MissedSince(before, id))
  }

  ghost predicate Seen(ids: seq<NodeId>, polls: seq<Poll>, n: nat, was: Workers, now: Workers, pending: Option<nat>,
                       before: seq<Event>, after: seq<Event>)
    requires |polls| == |ids| && n <= |ids|
  {
    SeenEntries(ids, polls, n, was, now, pending) && SeenCounts(ids, polls, n, pending, before, after)
  }

  lemma {:induction false} NextEntry(ids: seq<NodeId>, polls: seq<Poll>, n: nat, was: Workers, now: Workers,
                                     pending: Option<nat>)
    requires |polls| == |ids| && n < |ids| && Distinct(ids) && ids[n] in was &&
             SeenEntries(ids, polls, n, was, now, pending)
    ensures now[ids[n]] == was[ids[n]]
    ensures SeenEntries(ids, polls, n + 1, was, now[ids[n] := HeardAs(was[ids[n]], polls[n], pending)], pending)
  {
    hide HeardAs;
    assert ids[..n + 1] == ids[..n] + [ids[n]] && ids[n] !in ids[..n];
  }

  lemma {:induction false} NextCount(ids: seq<NodeId>, polls: seq<Poll>, n: nat, pending: Option<nat>,
                                     before: seq<Event>, mid: seq<Event>, after: seq<Event>)
    requires |polls| == |ids| && n < |ids| && Distinct(ids) && SeenCounts(ids, polls, n, pending, before, mid)
    requires after == if Credited(polls[n], pending) then mid + [Acked(ids[n])] else mid
    ensures SeenCounts(ids, polls, n + 1, pending, before, after)
  {
    hide MissedSince;
    assert ids[..n + 1] == ids[..n] + [ids[n]] && ids[n] !in ids[..n];
    forall g
      ensures MissedSince(after, g) == if g == ids[n] && Credited(polls[n], pending) then 0 else MissedSince(mid, g)
    {
      MissedNext(mid, Acked(ids[n]), g);
    }
  }

  /** One poll result is seen to. */
  method SeePoll(tracker: HeartbeatTracker, registry: PeerRegistry, ids: seq<NodeId>, polls: seq<Poll>, n: nat,
                 ghost was: Workers, ghost before: seq<Event>)
    requires tracker.Valid() && registry.Valid() && n < |ids| == |polls| && Distinct(ids)
    requires forall i :: 0 <= i < |ids| ==> ids[i] in was && was[ids[i]].status != Dead
    requires Seen(ids, polls, n, was, registry.workers, tracker.pendingNonce, before, tracker.history)
    modifies tracker`missedCounts, tracker`history, registry
    ensures tracker.Valid() && registry.Valid()
    ensures Seen(ids, polls, n + 1, was, registry.workers, tracker.pendingNonce, before, tracker.history)
  {
    hide MissedSince, WellFiled, SeenEntries, SeenCounts;
    var id, poll := ids[n], polls[n];
    ghost var mid, workers := tracker.history, registry.workers;
    SeenKeys(ids, polls, n, was, workers, tracker.pendingNonce);
    NextEntry(ids, polls, n, was, workers, tracker.pendingNonce);
    match poll {
      case Ack(nonce, freeBlocks) =>
        var _ := tracker.ProcessAck(registry, id, nonce, freeBlocks);
      case LeaveIntent => registry.MarkDraining(id);
      case Nothing =>
    }
    NextCount(ids, polls, n, tracker.pendingNonce, before, mid, tracker.history);
    assert registry.workers == workers[id := HeardAs(was[id], poll, tracker.pendingNonce)];
  }

  lemma {:induction false} SeenKeys(ids: seq<NodeId>, polls: seq<Poll>, n: nat, was: Workers, now: Workers,
                                    pending: Option<nat>)
    requires |polls| == |ids| && n <= |ids| && SeenEntries(ids, polls, n, was, now, pending)
    ensures now.Keys == was.Keys
  {
  }

  /**
   A heartbeat round.  One message is taken from the stream of every serving worker.  A worker is
   credited iff that is the ack of the pending heartbeat, and drains if it announces its leave.
   Then every worker that still serves counts one more, and those that reach the limit are reported.
   */
  method HeartbeatRound(tracker: HeartbeatTracker, registry: PeerRegistry, cluster: P.Cluster, maxMissed: nat)
    returns (order: seq<NodeId>, dead: seq<NodeId>)
    requires tracker.Valid() && registry.Valid() && cluster.Valid()
    modifies tracker`missedCounts, tracker`history, registry, cluster`links
    ensures tracker.Valid() && registry.Valid() && cluster.Valid() && InOrder(registry.workers, order)
    ensures exists polled ::
      ServingOnce(old(registry.workers), polled) && cluster.links == PolledLinks(old(cluster.links), polled)
    ensures registry.workers.Keys == old(registry.workers).Keys
    ensures forall id :: id in registry.workers ==>
      registry.workers[id] ==
        HeardAs(old(registry.workers)[id], Found(old(cluster.links), old(registry.workers), id), tracker.pendingNonce)
    ensures forall id ::
      MissedSince(tracker.history, id) == multiset(order)[id] +
        if Credited(Found(old(cluster.links), old(registry.workers), id), tracker.pendingNonce) then 0
        else MissedSince(old(tracker.history), id)
    ensures forall id :: id in dead <==> id in order && MissedSince(tracker.history, id) >= maxMissed
  {
    hide MissedSince, WellFiled, Seen, InOrder, PolledLinks, PollOf, P.ValidLinks;
    ghost var was, links, before := registry.workers, cluster.links, tracker.history;
    var ids := registry.PipelineOrder();
    OrderOnce(was, ids);
    var polls := PollAll(cluster, ids);
    NoneSeen(ids, polls, was, tracker.pendingNonce, before);
    for n := 0 to |ids|
      invariant tracker.Valid() && registry.Valid() && cluster.Valid() && cluster.links == PolledLinks(links, ids)
      invariant Seen(ids, polls, n, was, registry.workers, tracker.pendingNonce, before, tracker.history)
    {
      SeePoll(tracker, registry, ids, polls, n, was, before);
    }
    AllSeen(links, ids, polls, was, registry.workers, tracker.pendingNonce, before, tracker.history);
    order := registry.PipelineOrder();
    ghost var mid := tracker.history;
    dead := tracker.IncrementMissed(order, maxMissed);
    forall id
      ensures MissedSince(tracker.history, id) == MissedSince(mid, id) + multiset(order)[id]
    {
      MissedNext(mid, Round(order), id);
    }
  }

  lemma {:induction false} OrderOnce(workers: Workers, ids: seq<NodeId>)
    requires InOrder(workers, ids)
    ensures ServingOnce(workers, ids) && Distinct(ids) &&
            (forall id :: id in ids <==> id in workers && workers[id].Serving())
    ensures forall i :: 0 <= i < |ids| ==> ids[i] in workers && workers[ids[i]].status != Dead
  {
    assert forall i :: 0 <= i < |ids| ==> ids[i] in ids;
  }

  lemma {:induction false} NoneSeen(ids: seq<NodeId>, polls: seq<Poll>, workers: Workers, pending: Option<nat>,
                                    history: seq<Event>)
    requires |polls| == |ids|
    ensures Seen(ids, polls, 0, workers, workers, pending, history, history)
  {
  }

  lemma {:induction false} AllSeen(links: P.Links, ids: seq<NodeId>, polls: seq<Poll>, was: Workers, now: Workers,
                                   pending: Option<nat>, before: seq<Event>, after: seq<Event>)
    requires |polls| == |ids| && Seen(ids, polls, |ids|, was, now, pending, before, after)
    requires forall id :: id in ids <==> id in was && was[id].Serving()
    requires forall i :: 0 <= i < |ids| ==>
      polls[i] == if ids[i] in links then PollOf(links[ids[i]].outbox) else Nothing
    ensures now.Keys == was.Keys &&
            forall id :: id in was ==> now[id] == HeardAs(was[id], Found(links, was, id), pending)
    ensures forall id ::
      MissedSince(after, id) == if Credited(Found(links, was, id), pending) then 0 else MissedSince(before, id)
  {
    hide MissedSince, PollOf;
    assert ids[..|ids|] == ids;
    forall id
      ensures id in was ==> now[id] == HeardAs(was[id], Found(links, was, id), pending)
      ensures MissedSince(after, id) == if Credited(Found(links, was, id), pending) then 0 else MissedSince(before, id)
    {
      if id in ids {
        var i :| 0 <= i < |ids| && ids[i] == id;
        assert Found(links, was, id) == polls[i];
      }
    }
  }

  // ----- when an answer is credited -----

  /** The stream after n replies have been read from it. */
  function SkippedTimes(outbox: seq<W.Reply>, n: nat): seq<W.Reply>
    decreases n
  {
    if n == 0 then outbox else SkippedTimes(P.Skipped(outbox), n - 1)
  }

  ghost predicate NoneEchoes(outbox: seq<W.Reply>, nonce: nat) {
    forall i :: 0 <= i < |outbox| && outbox[i].HeartbeatAck? ==> outbox[i].beat.nonce != nonce
  }

  lemma {:induction false} SkippedEchoes(outbox: seq<W.Reply>, nonce: nat)
    requires NoneEchoes(outbox, nonce)
    ensures NoneEchoes(P.Skipped(outbox), nonce)
  {
    if outbox != [] && outbox[0].HeartbeatAck? {
      assert forall i :: 0 <= i < |outbox[1..]| ==> outbox[1..][i] == outbox[i + 1];
      SkippedEchoes(outbox[1..], nonce);
    }
  }

  lemma {:induction false} SkippedOften(outbox: seq<W.Reply>, n: nat, nonce: nat)
    requires NoneEchoes(outbox, nonce)
    ensures NoneEchoes(SkippedTimes(outbox, n), nonce)
    decreases n
  {
    if n > 0 {
      SkippedEchoes(outbox, nonce);
      SkippedOften(P.Skipped(outbox), n - 1, nonce);
    }
  }

  /** Acks in front of a reply go with it. */
  lemma {:induction false} SkippedPast(acks: seq<W.Reply>, rest: seq<W.Reply>)
    requires forall i :: 0 <= i < |acks| ==> acks[i].HeartbeatAck?
    ensures P.Skipped(acks + rest) == P.Skipped(rest)
  {
    if acks == [] {
      assert acks + rest == rest;
    } else {
      assert (acks + rest)[1..] == acks[1..] + rest;
      SkippedPast(acks[1..], rest);
    }
  }

  /**
   A worker has answered a heartbeat on a stream of nothing but older acks, has said more since,
   and n replies have been read.  The next poll credits it iff no older ack is in front and no
   reply has been read: passes and allocations throw acks away.
   */
  lemma {:induction false} CreditedIff(acks: seq<W.Reply>, beat: W.Beat, said: seq<W.Reply>, n: nat)
    requires forall i :: 0 <= i < |acks| ==> acks[i].HeartbeatAck?
    requires NoneEchoes(acks, beat.nonce) && NoneEchoes(said, beat.nonce)
    ensures Credited(PollOf(SkippedTimes(acks + [W.HeartbeatAck(beat)] + said, n)), Some(beat.nonce)) <==>
            acks == [] && n == 0
  {
    var stream := acks + [W.HeartbeatAck(beat)] + said;
    if n > 0 {
      SkippedPast(acks + [W.HeartbeatAck(beat)], said);
      SkippedEchoes(said, beat.nonce);
      SkippedOften(P.Skipped(stream), n - 1, beat.nonce);
    } else if acks != [] {
      assert stream[0] == acks[0];
    }
  }

  /** The answer to a heartbeat, followed by the reply to a message, which is read: the poll finds nothing. */
  lemma {:induction false} AnsweredYetMissed(beat: W.Beat, reply: W.Reply)
    requires !reply.HeartbeatAck?
    ensures PollOf(P.Skipped([W.HeartbeatAck(beat), reply])) == Nothing
  {
    assert [W.HeartbeatAck(beat), reply][1..] == [reply] && [reply][1..] == [];
  }

  /** What a round adds to the history of its only worker, given the stream it polls. */
  function RoundOf(outbox: seq<W.Reply>, nonce: nat, id: NodeId): seq<Event> {
    (if Credited(PollOf(outbox), Some(nonce)) then [Acked(id)] else []) + [Round([id])]
  }

  /** Rounds in which the worker answers every heartbeat at once and one reply is read before the next poll. */
  function BusyRounds(beats: seq<W.Beat>, reply: W.Reply, id: NodeId): seq<Event> {
    if beats == [] then []
    else
      var n := |beats| - 1;
      BusyRounds(beats[..n], reply, id) + RoundOf(P.Skipped([W.HeartbeatAck(beats[n]), reply]), beats[n].nonce, id)
  }

  /** A worker that answers every heartbeat and serves a message between them counts as silent throughout. */
  lemma {:induction false} BusyCountsAsDead(beats: seq<W.Beat>, reply: W.Reply, id: NodeId)
    requires !reply.HeartbeatAck?
    ensures MissedSince(BusyRounds(beats, reply, id), id) == |beats|
  {
    if beats != [] {
      var n := |beats| - 1;
      BusyCountsAsDead(beats[..n], reply, id);
      AnsweredYetMissed(beats[n], reply);
      assert RoundOf(P.Skipped([W.HeartbeatAck(beats[n]), reply]), beats[n].nonce, id) == [Round([id])];
      MissedNext(BusyRounds(beats[..n], reply, id), Round([id]), id);
    }
  }

  // ----- sending heartbeats -----

  /** The streams when the workers of `answers` have acked a heartbeat. */
  ghost function Beaten(links: P.Links, ids: set<NodeId>, nonce: nat, answers: map<NodeId, nat>): P.Links {
    map id | id in links ::
      if id in ids && id in answers then P.Link(links[id].worker,
                                                links[id].outbox + [W.HeartbeatAck(W.Beat(nonce, answers[id]))])
      else links[id]
  }

  /** A fresh heartbeat to every serving worker; those of `answers` ack it, with their free blocks. */
  method SendHeartbeats(tracker: HeartbeatTracker, registry: PeerRegistry, cluster: P.Cluster, nonce: nat,
                        answers: map<NodeId, nat>)
    requires tracker.Valid() && cluster.Valid()
    modifies tracker`pendingNonce, cluster`links
    ensures tracker.Valid() && tracker.pendingNonce == Some(nonce) && cluster.Valid()
    ensures cluster.links == Beaten(old(cluster.links),
                                    (set id | id in registry.workers && registry.workers[id].Serving()),
                                    nonce, answers)
  {
    hide P.ValidLinks, Beaten;
    ghost var was := cluster.links;
    var ids := registry.PipelineOrder();
    OrderOnce(registry.workers, ids);
    BeatenNone(was, nonce, answers);
    assert C.IdSet(ids[..0]) == {};
    for n := 0 to |ids|
      invariant cluster.Valid() && cluster.links == Beaten(was, C.IdSet(ids[..n]), nonce, answers)
      invariant tracker.Valid()
    {
      var id := ids[n];
      BeatenNext(cluster.m, was, ids, n, nonce, answers);
      if id in cluster.links && id in answers {
        var l := cluster.links[id];
        cluster.links := cluster.links[id := P.Link(l.worker, l.outbox + [W.HeartbeatAck(W.Beat(nonce, answers[id]))])];
      }
    }
    assert ids[..|ids|] == ids;
    assert C.IdSet(ids) == (set id | id in registry.workers && registry.workers[id].Serving());
    tracker.SetPendingNonce(nonce);
  }

  lemma {:induction false} BeatenNone(links: P.Links, nonce: nat, answers: map<NodeId, nat>)
    ensures Beaten(links, {}, nonce, answers) == links
  {
  }

  lemma {:induction false} BeatenNext(m: Model, links: P.Links, ids: seq<NodeId>, n: nat, nonce: nat,
                                      answers: map<NodeId, nat>)
    requires n < |ids| && Distinct(ids)
    ensures var now, next, id := Beaten(links, C.IdSet(ids[..n]), nonce, answers),
              Beaten(links, C.IdSet(ids[..n + 1]), nonce, answers), ids[n];
            now.Keys == links.Keys && (P.ValidLinks(m, links) ==> P.ValidLinks(m, next)) &&
            next == if id in links && id in answers
                    then now[id := P.Link(now[id].worker,
                                          now[id].outbox + [W.HeartbeatAck(W.Beat(nonce, answers[id]))])]
                    else now
  {
    hide W.ValidWorker;
    assert ids[..n + 1] == ids[..n] + [ids[n]] && ids[n] !in ids[..n];
  }
}
