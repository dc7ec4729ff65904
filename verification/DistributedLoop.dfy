/**
 The distributed scheduler loop: requests come in, are admitted one at a time, prefilled in
 chunks and decoded in batches, and every one is answered.  The pipeline, the clock and the
 registry are what each iteration finds; the order in which active sequences are walked is
 arbitrary.
 */
module DistributedScheduling {
  import opened Core
  import opened Transformer
  import opened WorkerProtocol
  import opened BatchWire

  datatype StopReason = Stop | Length

  datatype Event = Token(token: nat) | ErrorEvent | Finished(reason: StopReason, completionTokens: nat)

  /** A sampler is a function of the logits that may fail. */
  datatype Request = Request(
    seqId: SeqId,
    prompt: seq<nat>,
    maxTokens: nat,
    stopTokens: set<nat>,
    sample: Row -> Result<nat>)

  datatype Sequence = Sequence(
    req: Request,
    currentPos: nat,
    generated: seq<nat>,
    remaining: seq<nat>,
    prefillDone: bool)

  type Active = map<SeqId, Sequence>

  /** What has happened so far: requests received, events sent, ids sent down the pipeline. */
  datatype Log = Log(received: map<SeqId, Request>, events: map<SeqId, seq<Event>>, fed: map<SeqId, seq<nat>>)

  // ----- one sequence -----

  /**
   What has been fed is the prompt so far, or the prompt and all generated ids but the last; the
   next position is the number of ids fed.
   */
  ghost predicate WellFed(q: Sequence, fed: seq<nat>) {
    if q.prefillDone then
      q.req.prompt != [] && q.generated != [] && q.remaining == [] && q.currentPos == |fed| &&
      fed == q.req.prompt + q.generated[..|q.generated| - 1]
    else
      q.generated == [] && q.currentPos == |q.req.prompt| && fed + q.remaining == q.req.prompt &&
      (q.req.prompt != [] ==> q.remaining != [])
  }

  function Stream(tokens: seq<nat>): (es: seq<Event>)
    ensures |es| == |tokens|
  {
    seq(|tokens|, i requires 0 <= i < |tokens| => Token(tokens[i]))
  }

  ghost predicate NoStop(q: Sequence) {
    forall i :: 0 <= i < |q.generated| ==> q.generated[i] !in q.req.stopTokens
  }

  /** An active sequence: well fed, its events are its tokens, and it has not reached its end. */
  ghost predicate Running(s: SeqId, q: Sequence, log: Log) {
    s in log.received && log.received[s] == q.req && q.req.seqId == s && s in log.events && s in log.fed &&
    WellFed(q, log.fed[s]) && log.events[s] == Stream(q.generated) && NoStop(q) &&
    (q.generated != [] ==> |q.generated| < q.req.maxTokens)
  }

  /** A sequence that is about to be removed: its tokens are out, perhaps followed by an error. */
  ghost predicate Ended(s: SeqId, q: Sequence, log: Log) {
    s in log.received && log.received[s] == q.req && s in log.events && s in log.fed && OnlyTokensOrError(log.events[s])
  }

  ghost predicate OnlyTokensOrError(es: seq<Event>) {
    (forall i :: 0 <= i < |es| - 1 ==> es[i].Token?) && (es != [] ==> !es[|es| - 1].Finished?)
  }

  /** An answered request: the last event is an error or the end, and no token comes after one of these. */
  ghost predicate Answered(es: seq<Event>) {
    es != [] && !es[|es| - 1].Token? && forall i, j :: 0 <= i < j < |es| && !es[i].Token? ==> !es[j].Token?
  }

  lemma {:induction false} ErrorAnswers(tokens: seq<nat>)
    ensures Answered(Stream(tokens) + [ErrorEvent])
  {
  }

  lemma {:induction false} FinishedAnswers(es: seq<Event>, e: Event)
    requires OnlyTokensOrError(es) && e.Finished?
    ensures Answered(es + [e])
  {
  }

  lemma {:induction false} RunningUnanswered(s: SeqId, q: Sequence, log: Log)
    requires Running(s, q, log)
    ensures !Answered(log.events[s]) && OnlyTokensOrError(log.events[s])
  {
    if q.generated != [] { assert log.events[s][|q.generated| - 1].Token?; }
  }

  // ----- the state -----

  ghost predicate Waiting(r: Request, active: Active, log: Log) {
    r.seqId in log.received && log.received[r.seqId] == r && r.seqId !in active &&
    r.seqId in log.events && log.events[r.seqId] == [] && r.seqId in log.fed && log.fed[r.seqId] == []
  }

  ghost predicate IsPending(pending: seq<Request>, s: SeqId) {
    exists i :: 0 <= i < |pending| && pending[i].seqId == s
  }

  ghost predicate DistinctRequests(pending: seq<Request>) {
    forall i, j :: 0 <= i < j < |pending| ==> pending[i].seqId != pending[j].seqId
  }

  /**
   Every request received is pending, active or answered.  The sequences in `ending` have come to
   their end and wait to be removed.
   */
  ghost predicate StateOk(pending: seq<Request>, active: Active, log: Log, ending: set<SeqId>) {
    log.events.Keys == log.received.Keys && log.fed.Keys == log.received.Keys && DistinctRequests(pending) &&
    (forall i :: 0 <= i < |pending| ==> Waiting(pending[i], active, log)) &&
    (forall s :: s in active ==> Placed(s, active[s], log, ending)) &&
    (forall s :: s in log.received && s !in active && !IsPending(pending, s) ==> Answered(log.events[s]))
  }

  /** Events are only added, and no token once there has been an error or the end. */
  ghost predicate Continued(es: seq<Event>, es': seq<Event>) {
    es <= es' && (Answered(es) ==> forall i :: |es| <= i < |es'| ==> !es'[i].Token?)
  }

  lemma {:induction false} AnsweredStays(a: seq<Event>, b: seq<Event>)
    requires Continued(a, b) && Answered(a)
    ensures Answered(b)
  {
    assert b[..|a|] == a;
    forall i, j | 0 <= i < j < |b| && !b[i].Token?
      ensures !b[j].Token?
    {
      if j < |a| { assert a[i] == b[i] && a[j] == b[j]; }
    }
    if |b| == |a| { assert b == a; }
  }

  lemma {:induction false} ContinuedTransitive(a: seq<Event>, b: seq<Event>, c: seq<Event>)
    requires Continued(a, b) && Continued(b, c)
    ensures Continued(a, c)
  {
    if Answered(a) {
      AnsweredStays(a, b);
      forall i | |a| <= i < |c|
        ensures !c[i].Token?
      {
        if i < |b| { assert c[i] == b[i]; }
      }
    }
  }

  /** The log only grows, and an answered request gets no further token. */
  ghost predicate Later(log: Log, log': Log) {
    log.events.Keys == log.received.Keys && log'.events.Keys == log'.received.Keys &&
    forall s :: s in log.received ==>
      s in log'.received && log'.received[s] == log.received[s] && Continued(log.events[s], log'.events[s])
  }

  lemma {:induction false} LaterSame(log: Log)
    requires log.events.Keys == log.received.Keys
    ensures Later(log, log)
  {
  }

  lemma {:induction false} LaterTransitive(a: Log, b: Log, c: Log)
    requires Later(a, b) && Later(b, c)
    ensures Later(a, c)
  {
    hide Continued;
    forall s | s in a.received
      ensures Continued(a.events[s], c.events[s])
    {
      ContinuedTransitive(a.events[s], b.events[s], c.events[s]);
    }
  }

  // ----- sequences that a step does not touch -----

  ghost predicate AgreesOn(log: Log, log': Log, s: SeqId) {
    s in log.received && s in log'.received && log'.received[s] == log.received[s] &&
    s in log.events && s in log'.events && log'.events[s] == log.events[s] &&
    s in log.fed && s in log'.fed && log'.fed[s] == log.fed[s]
  }

  lemma {:induction false} AgreeRunning(s: SeqId, q: Sequence, log: Log, log': Log)
    requires Running(s, q, log) && AgreesOn(log, log', s)
    ensures Running(s, q, log')
  {
    hide WellFed, NoStop;
  }

  lemma {:induction false} AgreeEnded(s: SeqId, q: Sequence, log: Log, log': Log)
    requires Ended(s, q, log) && AgreesOn(log, log', s)
    ensures Ended(s, q, log')
  {
    hide OnlyTokensOrError;
  }

  lemma {:induction false} AgreeWaiting(r: Request, active: Active, active': Active, log: Log, log': Log)
    requires Waiting(r, active, log) && AgreesOn(log, log', r.seqId) && r.seqId !in active'
    ensures Waiting(r, active', log')
  {
  }

  ghost predicate Placed(s: SeqId, q: Sequence, log: Log, ending: set<SeqId>) {
    if s in ending then Ended(s, q, log) else Running(s, q, log)
  }

  lemma {:induction false} AgreePlaced(s: SeqId, q: Sequence, log: Log, log': Log, ending: set<SeqId>,
                                       ending': set<SeqId>)
    requires Placed(s, q, log, ending) && AgreesOn(log, log', s) && (s in ending <==> s in ending')
    ensures Placed(s, q, log', ending')
  {
    hide Running, Ended;
    if s in ending { AgreeEnded(s, q, log, log'); } else { AgreeRunning(s, q, log, log'); }
  }

  lemma {:induction false} PlacedKnown(s: SeqId, q: Sequence, log: Log, ending: set<SeqId>)
    requires Placed(s, q, log, ending)
    ensures s in log.received && log.received[s] == q.req && s in log.events && s in log.fed
  {
    hide WellFed, NoStop, OnlyTokensOrError;
  }

  lemma {:induction false} WaitingKnown(r: Request, active: Active, log: Log)
    requires Waiting(r, active, log)
    ensures r.seqId in log.received && r.seqId !in active && r.seqId in log.events && r.seqId in log.fed
    ensures log.events[r.seqId] == [] && log.fed[r.seqId] == []
  {
  }

  /**
   A step that touches sequence s alone: the pending list is a part of what it was, the others
   are as before, and s has its place.
   */
  lemma {:induction false} OneTouched(pending: seq<Request>, active: Active, log: Log, ending: set<SeqId>,
                   pending': seq<Request>, active': Active, log': Log, ending': set<SeqId>, s: SeqId)
    requires StateOk(pending, active, log, ending) &&
             (pending' == pending || (pending != [] && pending' == pending[1..] && pending[0].seqId == s))
    requires log'.received == log.received && log'.events.Keys == log.events.Keys && log'.fed.Keys == log.fed.Keys &&
             s in log.received
    requires forall t :: t in log.received && t != s ==> log'.events[t] == log.events[t] && log'.fed[t] == log.fed[t]
    requires forall t :: t != s ==>
      (t in active' <==> t in active) && (t in active ==> active'[t] == active[t]) && (t in ending' <==> t in ending)
    requires s in active' ==> Placed(s, active'[s], log', ending')
    requires s !in active' ==> Answered(log'.events[s])
    requires pending' == pending ==> !IsPending(pending, s)
    ensures StateOk(pending', active', log', ending')
  {
    hide Running, Ended, Waiting, Answered;
    forall t | t in active'
      ensures Placed(t, active'[t], log', ending')
    {
      if t != s {
        assert Placed(t, active[t], log, ending);
        PlacedKnown(t, active[t], log, ending);
        AgreePlaced(t, active[t], log, log', ending, ending');
      }
    }
    forall i | 0 <= i < |pending'|
      ensures Waiting(pending'[i], active', log')
    {
      var k := if pending' == pending then i else i + 1;
      assert pending[k] == pending'[i] && Waiting(pending[k], active, log);
      WaitingKnown(pending[k], active, log);
      assert pending[k].seqId != s;
      AgreeWaiting(pending[k], active, active', log, log');
    }
    forall t | t in log'.received && t !in active' && !IsPending(pending', t)
      ensures Answered(log'.events[t])
    {
      if t != s && pending' != pending { FirstPending(pending, t); }
    }
  }

  lemma {:induction false} NotPending(pending: seq<Request>, active: Active, log: Log, ending: set<SeqId>, s: SeqId)
    requires StateOk(pending, active, log, ending) && s in active
    ensures !IsPending(pending, s)
  {
    hide Running, Ended, Answered;
    assert forall i :: 0 <= i < |pending| ==> Waiting(pending[i], active, log);
  }

  /** Exactly one of the three. */
  lemma {:induction false} ExactlyOnePlace(pending: seq<Request>, active: Active, log: Log, s: SeqId)
    requires StateOk(pending, active, log, {}) && s in log.received
    ensures s in active ==> !IsPending(pending, s) && !Answered(log.events[s])
    ensures IsPending(pending, s) ==> s !in active && !Answered(log.events[s])
    ensures s !in active && !IsPending(pending, s) ==> Answered(log.events[s])
  {
    if s in active {
      assert Placed(s, active[s], log, {});
      RunningUnanswered(s, active[s], log);
    }
    if IsPending(pending, s) {
      var i :| 0 <= i < |pending| && pending[i].seqId == s;
      assert Waiting(pending[i], active, log);
    }
  }

  // ----- what the steps of an iteration do to the state -----

  ghost function Post(log: Log, s: SeqId, es: seq<Event>): Log
    requires s in log.events
  {
    log.(events := log.events[s := log.events[s] + es])
  }

  ghost function Opened(log: Log, r: Request): Log {
    Log(log.received[r.seqId := r], log.events[r.seqId := []], log.fed[r.seqId := []])
  }

  lemma {:induction false} PostLater(log: Log, s: SeqId, es: seq<Event>)
    requires log.events.Keys == log.received.Keys && s in log.events
    requires !Answered(log.events[s]) || forall i :: 0 <= i < |es| ==> !es[i].Token?
    ensures Later(log, Post(log, s, es))
  {
  }

  /** A new request waits. */
  lemma {:induction false} ReceiveKeeps(pending: seq<Request>, active: Active, log: Log, r: Request)
    requires StateOk(pending, active, log, {}) && r.seqId !in log.received
    ensures StateOk(pending + [r], active, Opened(log, r), {}) && Later(log, Opened(log, r))
  {
    hide Answered, Running, Ended, Waiting, IsPending;
    var pending', log' := pending + [r], Opened(log, r);
    OpenedLater(log, r);
    forall s | s in active
      ensures Placed(s, active[s], log', {}) && s != r.seqId
    {
      assert Placed(s, active[s], log, {});
      PlacedKnown(s, active[s], log, {});
      AgreePlaced(s, active[s], log, log', {}, {});
    }
    NewWaiting(active, log, r);
    forall i | 0 <= i < |pending|
      ensures Waiting(pending[i], active, log') && pending[i].seqId != r.seqId
    {
      OpenedWaiting(pending[i], active, log, r);
    }
    forall s | s in log'.received && s !in active && !IsPending(pending', s)
      ensures Answered(log'.events[s])
    {
      StillPending(pending, r, s);
    }
  }

  lemma {:induction false} OpenedWaiting(x: Request, active: Active, log: Log, r: Request)
    requires Waiting(x, active, log) && r.seqId !in log.received
    ensures Waiting(x, active, Opened(log, r)) && x.seqId != r.seqId
  {
  }

  lemma {:induction false} NewWaiting(active: Active, log: Log, r: Request)
    requires r.seqId !in active
    ensures Waiting(r, active, Opened(log, r))
  {
  }

  lemma {:induction false} OpenedLater(log: Log, r: Request)
    requires log.events.Keys == log.received.Keys && r.seqId !in log.received
    ensures Later(log, Opened(log, r))
  {
  }

  lemma {:induction false} StillPending(pending: seq<Request>, r: Request, s: SeqId)
    ensures IsPending(pending + [r], s) <==> IsPending(pending, s) || r.seqId == s
  {
    var all := pending + [r];
    if IsPending(pending, s) {
      var i :| 0 <= i < |pending| && pending[i].seqId == s;
      assert all[i].seqId == s;
    }
    assert all[|pending|] == r;
  }

  lemma {:induction false} FirstPending(pending: seq<Request>, s: SeqId)
    requires pending != []
    ensures IsPending(pending, s) <==> IsPending(pending[1..], s) || pending[0].seqId == s
  {
    if IsPending(pending[1..], s) {
      var i :| 0 <= i < |pending| - 1 && pending[1..][i].seqId == s;
      assert pending[i + 1].seqId == s;
    }
    if IsPending(pending, s) && pending[0].seqId != s {
      var i :| 0 <= i < |pending| && pending[i].seqId == s;
      assert pending[1..][i - 1].seqId == s;
    }
  }

  /** The first waiting request is turned away. */
  lemma {:induction false} RefuseKeeps(pending: seq<Request>, active: Active, log: Log)
    requires StateOk(pending, active, log, {}) && pending != []
    ensures pending[0].seqId in log.events
    ensures var log' := Post(log, pending[0].seqId, [ErrorEvent]);
            StateOk(pending[1..], active, log', {}) && Later(log, log') && Answered(log'.events[pending[0].seqId])
  {
    hide Answered, Running, Ended, Waiting;
    var r := pending[0];
    assert Waiting(r, active, log);
    WaitingKnown(r, active, log);
    var log' := Post(log, r.seqId, [ErrorEvent]);
    ErrorAnswers([]);
    assert Stream([]) + [ErrorEvent] == [ErrorEvent] == [] + [ErrorEvent];
    NothingUnanswered();
    PostLater(log, r.seqId, [ErrorEvent]);
    OneTouched(pending, active, log, {}, pending[1..], active, log', {}, r.seqId);
  }

  lemma {:induction false} NothingUnanswered()
    ensures !Answered([])
  {
  }

  /** The first waiting request becomes active. */
  lemma {:induction false} AdmitKeeps(pending: seq<Request>, active: Active, log: Log)
    requires StateOk(pending, active, log, {}) && pending != []
    ensures var r := pending[0];
            StateOk(pending[1..], active[r.seqId := Sequence(r, |r.prompt|, [], r.prompt, false)], log, {})
  {
    hide Answered, Running, Ended, Waiting;
    var r := pending[0];
    var q := Sequence(r, |r.prompt|, [], r.prompt, false);
    assert Waiting(r, active, log);
    WaitingKnown(r, active, log);
    AdmittedRuns(r, active, log);
    OneTouched(pending, active, log, {}, pending[1..], active[r.seqId := q], log, {}, r.seqId);
  }

  lemma {:induction false} AdmittedRuns(r: Request, active: Active, log: Log)
    requires Waiting(r, active, log)
    ensures Running(r.seqId, Sequence(r, |r.prompt|, [], r.prompt, false), log)
  {
    assert [] + r.prompt == r.prompt && Stream([]) == [];
  }

  /** An active sequence is aborted. */
  lemma {:induction false} AbortKeeps(pending: seq<Request>, active: Active, log: Log, s: SeqId)
    requires StateOk(pending, active, log, {}) && s in active
    ensures s in log.events
    ensures var log' := Post(log, s, [ErrorEvent]);
            StateOk(pending, active - {s}, log', {}) && Later(log, log') && Answered(log'.events[s])
  {
    hide Answered, Running, Ended, Waiting;
    assert Placed(s, active[s], log, {});
    PlacedKnown(s, active[s], log, {});
    var log' := Post(log, s, [ErrorEvent]);
    RunningAborts(s, active[s], log);
    PostLater(log, s, [ErrorEvent]);
    NotPending(pending, active, log, {}, s);
    OneTouched(pending, active, log, {}, pending, active - {s}, log', {}, s);
  }

  lemma {:induction false} RunningAborts(s: SeqId, q: Sequence, log: Log)
    requires Running(s, q, log)
    ensures Answered(log.events[s] + [ErrorEvent])
  {
    ErrorAnswers(q.generated);
  }

  // ----- batches -----

  datatype Limits = Limits(maxBatchSize: nat, maxBatchTokens: nat, maxPrefillTokens: nat)

  /** The parallel lists that are sent: metadata, all ids in one list, and which parts are prefills. */
  datatype BatchPlan = BatchPlan(metas: seq<SequenceMeta>, ids: seq<nat>, isPrefill: seq<bool>)

  function LastOr0(tokens: seq<nat>): nat {
    if tokens == [] then 0 else tokens[|tokens| - 1]
  }

  /** One part: a chunk of what is left of the prompt, or the last generated id, at the next positions. */
  ghost predicate PartOk(meta: SequenceMeta, isPrefill: bool, chunk: seq<nat>, active: Active, limits: Limits) {
    meta.seqId in active && meta.numTokens == |meta.positions| == |chunk| &&
    var q := active[meta.seqId];
    if isPrefill then
      !q.prefillDone && q.remaining != [] && |chunk| <= |q.remaining| && chunk == q.remaining[..|chunk|] &&
      |chunk| <= limits.maxPrefillTokens && (limits.maxPrefillTokens > 0 ==> chunk != []) &&
      |q.remaining| <= q.currentPos && meta.positions == Positions(q.currentPos - |q.remaining|, |chunk|)
    else q.prefillDone && chunk == [LastOr0(q.generated)] && meta.positions == [q.currentPos]
  }

  /** Each sequence at most once, each part as it should be, prefills first, all limits kept. */
  ghost predicate PlanOk(plan: BatchPlan, chunks: seq<seq<nat>>, active: Active, limits: Limits) {
    |plan.metas| == |plan.isPrefill| == |chunks| && plan.ids == Concat(chunks) && DistinctSeqs(plan.metas) &&
    (forall i :: 0 <= i < |plan.metas| ==> PartOk(plan.metas[i], plan.isPrefill[i], chunks[i], active, limits)) &&
    (forall i, j :: 0 <= i < j < |plan.metas| && plan.isPrefill[j] ==> plan.isPrefill[i]) &&
    |plan.ids| <= limits.maxBatchTokens && |plan.metas| <= limits.maxBatchSize
  }

  /** One more part behind the others. */
  lemma {:induction false} PlanNext(plan: BatchPlan, chunks: seq<seq<nat>>, active: Active, limits: Limits,
                                    meta: SequenceMeta, isPrefill: bool, chunk: seq<nat>)
    requires PlanOk(plan, chunks, active, limits) && PartOk(meta, isPrefill, chunk, active, limits)
    requires forall i :: 0 <= i < |plan.metas| ==> plan.metas[i].seqId != meta.seqId
    requires isPrefill ==> forall i :: 0 <= i < |plan.isPrefill| ==> plan.isPrefill[i]
    requires |plan.ids| + |chunk| <= limits.maxBatchTokens && |plan.metas| < limits.maxBatchSize
    ensures PlanOk(BatchPlan(plan.metas + [meta], plan.ids + chunk, plan.isPrefill + [isPrefill]), chunks + [chunk],
                   active, limits)
  {
    hide PartOk;
    ConcatSnoc(chunks, chunk);
  }

  lemma {:induction false} EmptyPlan(active: Active, limits: Limits)
    ensures PlanOk(BatchPlan([], [], []), [], active, limits)
  {
  }

  /** The parts are all among the first n of the order. */
  ghost predicate FromFirst(plan: BatchPlan, order: seq<SeqId>, n: nat) {
    n <= |order| && forall i :: 0 <= i < |plan.metas| ==> plan.metas[i].seqId in order[..n]
  }

  lemma {:induction false} FromFirstNext(plan: BatchPlan, order: seq<SeqId>, n: nat)
    requires n < |order| && Distinct(order) && FromFirst(plan, order, n)
    ensures forall i :: 0 <= i < |plan.metas| ==> plan.metas[i].seqId != order[n]
    ensures FromFirst(plan, order, n + 1)
  {
    assert order[n] !in order[..n];
    assert order[..n + 1] == order[..n] + [order[n]];
  }

  ghost predicate AllPrefill(plan: BatchPlan) {
    forall i :: 0 <= i < |plan.isPrefill| ==> plan.isPrefill[i]
  }

  /** A sequence that can be given something to do: all but those with an empty prompt. */
  predicate Schedulable(q: Sequence) {
    q.prefillDone || q.remaining != []
  }

  /** There is room for a part, and a sequence to fill it. */
  predicate HasWork(active: Active, order: seq<SeqId>, limits: Limits) {
    limits.maxBatchTokens > 0 && limits.maxBatchSize > 0 &&
    exists i :: 0 <= i < |order| && order[i] in active && Schedulable(active[order[i]])
  }

  /** The batch has reached a limit. */
  predicate Full(plan: BatchPlan, limits: Limits) {
    |plan.ids| >= limits.maxBatchTokens || |plan.metas| >= limits.maxBatchSize
  }

  /** A chunk is all that is left of the prompt, unless a limit cuts it. */
  ghost predicate WholeChunk(plan: BatchPlan, chunks: seq<seq<nat>>, active: Active, limits: Limits, i: nat) {
    i < |plan.metas| == |plan.isPrefill| == |chunks| && plan.metas[i].seqId in active &&
    (plan.isPrefill[i] ==>
       |chunks[i]| == |active[plan.metas[i].seqId].remaining| || |chunks[i]| == limits.maxPrefillTokens ||
       |Concat(chunks[..i + 1])| == limits.maxBatchTokens)
  }

  ghost predicate WholeChunks(plan: BatchPlan, chunks: seq<seq<nat>>, active: Active, limits: Limits) {
    forall i :: 0 <= i < |plan.metas| ==> WholeChunk(plan, chunks, active, limits, i)
  }

  /** Of the first n, those that can be prefilled are in the batch, unless it is full. */
  ghost predicate PrefillsTaken(plan: BatchPlan, active: Active, order: seq<SeqId>, limits: Limits, n: nat) {
    forall i :: 0 <= i < n <= |order| && order[i] in active && !active[order[i]].prefillDone &&
                active[order[i]].remaining != [] ==>
      InBatch(plan, order[i]) || Full(plan, limits)
  }

  /** The same of those that can be decoded. */
  ghost predicate DecodesTaken(plan: BatchPlan, active: Active, order: seq<SeqId>, limits: Limits, n: nat) {
    forall i :: 0 <= i < n <= |order| && order[i] in active && active[order[i]].prefillDone ==>
      InBatch(plan, order[i]) || Full(plan, limits)
  }

  ghost predicate InBatch(plan: BatchPlan, s: SeqId) {
    exists i :: 0 <= i < |plan.metas| && plan.metas[i].seqId == s
  }

  lemma {:induction false} OneMorePart(plan: BatchPlan, chunks: seq<seq<nat>>, active: Active, order: seq<SeqId>,
                                       limits: Limits, meta: SequenceMeta, isPrefill: bool, chunk: seq<nat>, n: nat)
    requires |plan.metas| == |plan.isPrefill| == |chunks| && plan.ids == Concat(chunks) && meta.seqId in active
    requires WholeChunks(plan, chunks, active, limits)
    requires isPrefill ==>
      |chunk| == |active[meta.seqId].remaining| || |chunk| == limits.maxPrefillTokens ||
      |plan.ids| + |chunk| == limits.maxBatchTokens
    ensures var plan' := BatchPlan(plan.metas + [meta], plan.ids + chunk, plan.isPrefill + [isPrefill]);
            WholeChunks(plan', chunks + [chunk], active, limits) && InBatch(plan', meta.seqId) &&
            (PrefillsTaken(plan, active, order, limits, n) ==> PrefillsTaken(plan', active, order, limits, n)) &&
            (DecodesTaken(plan, active, order, limits, n) ==> DecodesTaken(plan', active, order, limits, n))
  {
    var plan' := BatchPlan(plan.metas + [meta], plan.ids + chunk, plan.isPrefill + [isPrefill]);
    var chunks' := chunks + [chunk];
    ConcatSnoc(chunks, chunk);
    assert chunks'[..|chunks| + 1] == chunks';
    forall i | 0 <= i < |plan'.metas|
      ensures WholeChunk(plan', chunks', active, limits, i)
    {
      if i < |plan.metas| {
        assert WholeChunk(plan, chunks, active, limits, i);
        assert chunks'[..i + 1] == chunks[..i + 1];
      }
    }
    assert plan'.metas[|plan.metas|] == meta;
    forall s | InBatch(plan, s)
      ensures InBatch(plan', s)
    {
      var i :| 0 <= i < |plan.metas| && plan.metas[i].seqId == s;
      assert plan'.metas[i].seqId == s;
    }
  }

  /** Prefills, chunked. */
  method AddPrefills(active: Active, order: seq<SeqId>, limits: Limits)
    returns (plan: BatchPlan, ghost chunks: seq<seq<nat>>)
    requires Distinct(order) && forall i :: 0 <= i < |order| ==> order[i] in active
    requires forall s :: s in active && !active[s].prefillDone ==> |active[s].remaining| <= active[s].currentPos
    ensures PlanOk(plan, chunks, active, limits) && AllPrefill(plan) && FromFirst(plan, order, |order|)
    ensures plan.metas == [] && limits.maxBatchTokens > 0 && limits.maxBatchSize > 0 ==>
      plan.ids == [] && forall i :: 0 <= i < |order| ==>
        active[order[i]].prefillDone || active[order[i]].remaining == []
    ensures plan.metas != [] ==> HasWork(active, order, limits)
    ensures forall i :: 0 <= i < |plan.metas| ==>
      plan.metas[i].seqId in active && !active[plan.metas[i].seqId].prefillDone
    ensures WholeChunks(plan, chunks, active, limits) && PrefillsTaken(plan, active, order, limits, |order|)
  {
    hide PlanOk, PartOk, Positions, WholeChunks, InBatch, PrefillsTaken, DecodesTaken;
    plan, chunks := BatchPlan([], [], []), [];
    NothingTaken(active, order, limits);
    EmptyPlan(active, limits);
    for n := 0 to |order|
      invariant |plan.metas| == |plan.isPrefill| && PlanOk(plan, chunks, active, limits) && AllPrefill(plan) &&
                FromFirst(plan, order, n)
      invariant forall i :: 0 <= i < |plan.metas| ==>
        plan.metas[i].seqId in active && !active[plan.metas[i].seqId].prefillDone
      invariant plan.metas != [] ==> HasWork(active, order, limits)
      invariant plan.metas == [] ==>
        plan.ids == [] && forall i :: 0 <= i < n ==> active[order[i]].prefillDone || active[order[i]].remaining == []
      invariant WholeChunks(plan, chunks, active, limits) && PrefillsTaken(plan, active, order, limits, n)
    {
      FromFirstNext(plan, order, n);
      PlanFacts(plan, chunks, active, limits);
      TakenNext(plan, active, order, limits, n);
      var q := active[order[n]];
      if !q.prefillDone && q.remaining != [] {
        if |plan.ids| >= limits.maxBatchTokens || |plan.metas| >= limits.maxBatchSize {
          FirstsGrow(plan, order, n);
          FullTakes(plan, active, order, limits);
          return;
        }
        var size := Least(|q.remaining|, limits.maxPrefillTokens, limits.maxBatchTokens - |plan.ids|);
        var chunk := q.remaining[..size];
        var meta := SequenceMeta(order[n], Positions(q.currentPos - |q.remaining|, size), size);
        PrefillPart(active, order[n], size, limits);
        PlanNext(plan, chunks, active, limits, meta, true, chunk);
        OneMorePart(plan, chunks, active, order, limits, meta, true, chunk, n);
        plan := BatchPlan(plan.metas + [meta], plan.ids + chunk, plan.isPrefill + [true]);
        chunks := chunks + [chunk];
        assert order[..n + 1][n] == order[n];
        TakenNext(plan, active, order, limits, n);
      }
    }
  }

  lemma {:induction false} NothingTaken(active: Active, order: seq<SeqId>, limits: Limits)
    ensures WholeChunks(BatchPlan([], [], []), [], active, limits)
    ensures PrefillsTaken(BatchPlan([], [], []), active, order, limits, 0)
  {
  }

  /** The n-th needs nothing, or is taken. */
  lemma {:induction false} TakenNext(plan: BatchPlan, active: Active, order: seq<SeqId>, limits: Limits, n: nat)
    requires n < |order| && order[n] in active
    ensures PrefillsTaken(plan, active, order, limits, n) &&
            (active[order[n]].prefillDone || active[order[n]].remaining == [] || InBatch(plan, order[n])) ==>
      PrefillsTaken(plan, active, order, limits, n + 1)
    ensures DecodesTaken(plan, active, order, limits, n) &&
            (!active[order[n]].prefillDone || InBatch(plan, order[n])) ==>
      DecodesTaken(plan, active, order, limits, n + 1)
  {
    hide InBatch;
  }

  lemma {:induction false} FullTakes(plan: BatchPlan, active: Active, order: seq<SeqId>, limits: Limits)
    requires Full(plan, limits)
    ensures PrefillsTaken(plan, active, order, limits, |order|) && DecodesTaken(plan, active, order, limits, |order|)
  {
  }

  function Least(a: nat, b: nat, c: nat): (m: nat)
    ensures m <= a && m <= b && m <= c && (m == a || m == b || m == c)
  {
    var ab := if a < b then a else b;
    if ab < c then ab else c
  }

  lemma {:induction false} PrefillPart(active: Active, s: SeqId, size: nat, limits: Limits)
    requires s in active && !active[s].prefillDone && active[s].remaining != [] &&
             |active[s].remaining| <= active[s].currentPos
    requires size <= |active[s].remaining| && size <= limits.maxPrefillTokens &&
             (limits.maxPrefillTokens > 0 ==> size > 0)
    ensures var q := active[s];
            PartOk(SequenceMeta(s, Positions(q.currentPos - |q.remaining|, size), size), true, q.remaining[..size],
                   active, limits)
  {
  }

  lemma {:induction false} FirstsGrow(plan: BatchPlan, order: seq<SeqId>, n: nat)
    requires n <= |order| && FromFirst(plan, order, n)
    ensures FromFirst(plan, order, |order|)
  {
    forall i | 0 <= i < |plan.metas|
      ensures plan.metas[i].seqId in order[..|order|]
    {
      assert plan.metas[i].seqId in order[..n];
    }
  }

  lemma {:induction false} DecodePart(active: Active, s: SeqId, limits: Limits)
    requires s in active && active[s].prefillDone
    ensures PartOk(SequenceMeta(s, [active[s].currentPos], 1), false, [LastOr0(active[s].generated)], active, limits)
  {
  }

  lemma {:induction false} SchedulableIffPrompt(s: SeqId, q: Sequence, log: Log)
    requires Running(s, q, log)
    ensures Schedulable(q) <==> q.req.prompt != []
  {
  }

  /**
   The batch: prefills in the order of the map, then decodes in the same order, as far as the
   limits allow.  It is empty iff a limit is zero or nothing can be scheduled.  A sequence that
   could be scheduled is left out only of a full batch, and a chunk is cut only by a limit.
   */
  method BuildBatch(active: Active, order: seq<SeqId>, limits: Limits)
    returns (plan: BatchPlan, ghost chunks: seq<seq<nat>>)
    requires Distinct(order) && forall i :: 0 <= i < |order| ==> order[i] in active
    requires forall s :: s in active && !active[s].prefillDone ==> |active[s].remaining| <= active[s].currentPos
    ensures PlanOk(plan, chunks, active, limits)
    ensures plan.metas != [] <==> HasWork(active, order, limits)
    ensures WholeChunks(plan, chunks, active, limits)
    ensures PrefillsTaken(plan, active, order, limits, |order|) && DecodesTaken(plan, active, order, limits, |order|)
  {
    hide PlanOk, PartOk, Positions, WholeChunks, InBatch, PrefillsTaken, DecodesTaken;
    plan, chunks := AddPrefills(active, order, limits);
    NoDecodes(plan, active, order, limits);
    ghost var first := |plan.metas|;
    PlanFacts(plan, chunks, active, limits);
    for n := 0 to |order|
      invariant |plan.metas| == |plan.isPrefill| && first <= |plan.metas| && PlanOk(plan, chunks, active, limits)
      invariant forall i :: 0 <= i < first ==> plan.metas[i].seqId in active && !active[plan.metas[i].seqId].prefillDone
      invariant forall i :: first <= i < |plan.metas| ==> plan.metas[i].seqId in order[..n]
      invariant plan.metas != [] ==> HasWork(active, order, limits)
      invariant plan.metas == [] && limits.maxBatchTokens > 0 && limits.maxBatchSize > 0 ==>
        plan.ids == [] && (forall i :: 0 <= i < n ==> !active[order[i]].prefillDone) &&
        forall i :: 0 <= i < |order| ==> active[order[i]].prefillDone || active[order[i]].remaining == []
      invariant WholeChunks(plan, chunks, active, limits)
      invariant PrefillsTaken(plan, active, order, limits, |order|) && DecodesTaken(plan, active, order, limits, n)
    {
      var s := order[n];
      PlanFacts(plan, chunks, active, limits);
      TakenNext(plan, active, order, limits, n);
      assert s !in order[..n] && order[..n + 1] == order[..n] + [s];
      if active[s].prefillDone {
        if |plan.ids| >= limits.maxBatchTokens || |plan.metas| >= limits.maxBatchSize {
          FullTakes(plan, active, order, limits);
          return;
        }
        var token := LastOr0(active[s].generated);
        var meta := SequenceMeta(s, [active[s].currentPos], 1);
        DecodePart(active, s, limits);
        PlanNext(plan, chunks, active, limits, meta, false, [token]);
        OneMorePart(plan, chunks, active, order, limits, meta, false, [token], n);
        OneMorePart(plan, chunks, active, order, limits, meta, false, [token], |order|);
        plan := BatchPlan(plan.metas + [meta], plan.ids + [token], plan.isPrefill + [false]);
        chunks := chunks + [[token]];
        TakenNext(plan, active, order, limits, n);
      }
    }
  }

  lemma {:induction false} NoDecodes(plan: BatchPlan, active: Active, order: seq<SeqId>, limits: Limits)
    ensures DecodesTaken(plan, active, order, limits, 0)
  {
  }

  lemma {:induction false} PlanFacts(plan: BatchPlan, chunks: seq<seq<nat>>, active: Active, limits: Limits)
    requires PlanOk(plan, chunks, active, limits)
    ensures |plan.metas| == |plan.isPrefill| == |chunks| && plan.ids == Concat(chunks) && DistinctSeqs(plan.metas)
    ensures forall i :: 0 <= i < |plan.metas| ==> plan.metas[i].seqId in active
  {
    hide Concat;
    forall i | 0 <= i < |plan.metas|
      ensures plan.metas[i].seqId in active
    {
      assert PartOk(plan.metas[i], plan.isPrefill[i], chunks[i], active, limits);
    }
  }

  // ----- after a pass -----

  datatype Advanced = Advanced(q: Sequence, events: seq<Event>, done: bool)

  /** What the sampling loop makes of one sequence of the batch. */
  function Advance(q: Sequence, size: nat, isPrefill: bool, logits: Row): Advanced
    requires isPrefill ==> size <= |q.remaining|
  {
    if isPrefill && q.remaining[size..] != [] then Advanced(q.(remaining := q.remaining[size..]), [], false)
    else
      var q' := if isPrefill then q.(remaining := [], prefillDone := true) else q;
      match q.req.sample(logits)
      case Err(_) => Advanced(q', [ErrorEvent], true)
      case Ok(t) =>
        var q'' := q'.(generated := q'.generated + [t], currentPos := q'.currentPos + if isPrefill then 0 else 1);
        if t in q.req.stopTokens then Advanced(q'', [], true)
        else Advanced(q'', [Token(t)], |q''.generated| >= q.req.maxTokens)
  }

  /** The log when the chunk of sequence s has been fed and its new events are out. */
  ghost function Progressed(log: Log, s: SeqId, chunk: seq<nat>, es: seq<Event>): Log
    requires s in log.events && s in log.fed
  {
    log.(fed := log.fed[s := log.fed[s] + chunk], events := log.events[s := log.events[s] + es])
  }

  lemma {:induction false} StreamSnoc(tokens: seq<nat>, t: nat)
    ensures Stream(tokens + [t]) == Stream(tokens) + [Token(t)]
  {
  }

  /** The part of a batch is what its sequence is to be fed next, at the positions where it stands. */
  lemma {:induction false} PartContinues(meta: SequenceMeta, isPrefill: bool, chunk: seq<nat>, active: Active,
                                         limits: Limits, log: Log)
    requires PartOk(meta, isPrefill, chunk, active, limits) && Running(meta.seqId, active[meta.seqId], log)
    ensures meta.positions == Positions(|log.fed[meta.seqId]|, |chunk|)
    ensures var q := active[meta.seqId];
            log.fed[meta.seqId] + chunk <= q.req.prompt + q.generated
  {
    var q, fed := active[meta.seqId], log.fed[meta.seqId];
    if isPrefill {
      assert fed + q.remaining == q.req.prompt;
      assert fed + chunk == q.req.prompt[..|fed| + |chunk|];
    } else {
      var n := |q.generated| - 1;
      assert q.generated == q.generated[..n] + [q.generated[n]];
      assert fed + chunk == q.req.prompt + q.generated;
      assert Positions(|fed|, 1) == [q.currentPos];
    }
  }

  /** A prefill chunk that is not the last. */
  lemma {:induction false} ChunkFed(q: Sequence, fed: seq<nat>, size: nat)
    requires WellFed(q, fed) && !q.prefillDone && size <= |q.remaining| && q.remaining[size..] != []
    ensures WellFed(q.(remaining := q.remaining[size..]), fed + q.remaining[..size])
  {
    assert fed + q.remaining[..size] + q.remaining[size..] == fed + q.remaining;
  }

  /** The last prefill chunk and the first token. */
  lemma {:induction false} PrefillFed(q: Sequence, fed: seq<nat>, t: nat)
    requires WellFed(q, fed) && !q.prefillDone && q.remaining != []
    ensures WellFed(q.(remaining := [], prefillDone := true, generated := q.generated + [t]), fed + q.remaining)
  {
    assert q.req.prompt + (q.generated + [t])[..0] == q.req.prompt;
  }

  /** A decode step. */
  lemma {:induction false} DecodeFed(q: Sequence, fed: seq<nat>, t: nat)
    requires WellFed(q, fed) && q.prefillDone
    ensures WellFed(q.(generated := q.generated + [t], currentPos := q.currentPos + 1), fed + [LastOr0(q.generated)])
  {
    var n := |q.generated| - 1;
    assert q.generated == q.generated[..n] + [q.generated[n]];
    assert (q.generated + [t])[..n + 1] == q.generated;
  }

  /** One sequence of the batch: it runs on, well fed, or it has come to its end. */
  lemma {:induction false} AdvanceKeeps(s: SeqId, q: Sequence, log: Log, size: nat, isPrefill: bool, chunk: seq<nat>,
                                        logits: Row)
    requires Running(s, q, log) && |chunk| == size
    requires if isPrefill then !q.prefillDone && q.remaining != [] && size <= |q.remaining| &&
             chunk == q.remaining[..size]
             else q.prefillDone && chunk == [LastOr0(q.generated)]
    ensures var a := Advance(q, size, isPrefill, logits);
            var log' := Progressed(log, s, chunk, a.events);
            if a.done then Ended(s, a.q, log') else Running(s, a.q, log')
  {
    hide Answered;
    var fed := log.fed[s];
    var a := Advance(q, size, isPrefill, logits);
    if isPrefill && q.remaining[size..] != [] {
      ChunkFed(q, fed, size);
      assert log.events[s] + [] == log.events[s];
    } else {
      if isPrefill { assert q.remaining[..size] == q.remaining; }
      match q.req.sample(logits)
      case Err(_) =>
      case Ok(t) =>
        StreamSnoc(q.generated, t);
        if isPrefill { PrefillFed(q, fed, t); } else { DecodeFed(q, fed, t); }
    }
  }

  /** The batch state while its sequences are advanced: one of them moves. */
  lemma {:induction false} SampleKeeps(pending: seq<Request>, active: Active, log: Log, ending: set<SeqId>, s: SeqId,
                                       a: Advanced, chunk: seq<nat>)
    requires StateOk(pending, active, log, ending) && s in active && s !in ending && s in log.events && s in log.fed
    requires var log' := Progressed(log, s, chunk, a.events);
             if a.done then Ended(s, a.q, log') else Running(s, a.q, log')
    ensures var log' := Progressed(log, s, chunk, a.events);
            StateOk(pending, active[s := a.q], log', if a.done then ending + {s} else ending) && Later(log, log')
  {
    hide Answered, Running, Ended, Waiting;
    assert Placed(s, active[s], log, ending);
    PlacedKnown(s, active[s], log, ending);
    RunningUnanswered(s, active[s], log);
    ProgressedLater(log, s, chunk, a.events);
    NotPending(pending, active, log, ending, s);
    OneTouched(pending, active, log, ending, pending, active[s := a.q], Progressed(log, s, chunk, a.events),
               if a.done then ending + {s} else ending, s);
  }

  lemma {:induction false} ProgressedLater(log: Log, s: SeqId, chunk: seq<nat>, es: seq<Event>)
    requires log.events.Keys == log.received.Keys && s in log.events && s in log.fed && !Answered(log.events[s])
    ensures Later(log, Progressed(log, s, chunk, es))
  {
  }

  function StopReasonOf(q: Sequence): StopReason {
    if LastOr0(q.generated) in q.req.stopTokens then Stop else Length
  }

  function FinalEvent(q: Sequence): Event {
    Finished(StopReasonOf(q), |q.generated|)
  }

  /** A sequence that has ended is told so and removed. */
  lemma {:induction false} FinishKeeps(pending: seq<Request>, active: Active, log: Log, ending: set<SeqId>, s: SeqId)
    requires StateOk(pending, active, log, ending) && s in active && s in ending
    ensures s in log.events
    ensures var log' := Post(log, s, [FinalEvent(active[s])]);
            StateOk(pending, active - {s}, log', ending - {s}) && Later(log, log') && Answered(log'.events[s])
  {
    hide Answered, Running, Ended, Waiting;
    assert Placed(s, active[s], log, ending);
    PlacedKnown(s, active[s], log, ending);
    EndedFinishes(s, active[s], log);
    PostLater(log, s, [FinalEvent(active[s])]);
    NotPending(pending, active, log, ending, s);
    OneTouched(pending, active, log, ending, pending, active - {s}, Post(log, s, [FinalEvent(active[s])]),
               ending - {s}, s);
  }

  lemma {:induction false} EndedFinishes(s: SeqId, q: Sequence, log: Log)
    requires Ended(s, q, log)
    ensures Answered(log.events[s] + [FinalEvent(q)])
  {
    FinishedAnswers(log.events[s], FinalEvent(q));
  }

  // ----- what is handed to the pipeline -----

  /** One id of a batch handed to the pipeline, with the position it goes to. */
  datatype Sent = Sent(position: nat, id: nat)

  ghost function Pairs(positions: seq<nat>, ids: seq<nat>): (sent: seq<Sent>)
    requires |positions| == |ids|
    ensures |sent| == |ids|
  {
    seq(|ids|, i requires 0 <= i < |ids| => Sent(positions[i], ids[i]))
  }

  ghost function SentIds(sent: seq<Sent>): (ids: seq<nat>)
    ensures |ids| == |sent|
  {
    seq(|sent|, i requires 0 <= i < |sent| => sent[i].id)
  }

  ghost predicate InPlace(sent: seq<Sent>) {
    forall i :: 0 <= i < |sent| ==> sent[i].position == i
  }

  /** The tokens a client has been shown. */
  ghost function TokensOf(es: seq<Event>): seq<nat> {
    if es == [] then [] else
    var e := es[|es| - 1];
    TokensOf(es[..|es| - 1]) + if e.Token? then [e.token] else []
  }

  lemma {:induction false} TokensOfStream(tokens: seq<nat>)
    ensures TokensOf(Stream(tokens)) == tokens
  {
    if tokens != [] {
      var n := |tokens| - 1;
      TokensOfStream(tokens[..n]);
      StreamSnoc(tokens[..n], tokens[n]);
      assert tokens[..n] + [tokens[n]] == tokens && Stream(tokens)[..n] == Stream(tokens[..n]);
    }
  }

  lemma {:induction false} TokensGrow(es: seq<Event>, es': seq<Event>)
    requires es <= es'
    ensures TokensOf(es) <= TokensOf(es')
    decreases |es'|
  {
    if |es| < |es'| { TokensGrow(es, es'[..|es'| - 1]); } else { assert es == es'; }
  }

  /** Sent to positions 0, 1, 2, ...: the prompt and the tokens shown, from the first on and none left out. */
  ghost predicate SentRight(r: Request, es: seq<Event>, sent: seq<Sent>) {
    InPlace(sent) && SentIds(sent) <= r.prompt + TokensOf(es)
  }

  lemma {:induction false} SentStaysRight(r: Request, es: seq<Event>, es': seq<Event>, sent: seq<Sent>)
    requires SentRight(r, es, sent) && es <= es'
    ensures SentRight(r, es', sent)
  {
    hide TokensOf;
    TokensGrow(es, es');
  }

  /**
   For every request ever received, what has been sent for it is right, failed batches included.
   One that is neither answered nor in the batch under way has been fed what was sent.
   */
  ghost predicate SentOk(log: Log, sent: map<SeqId, seq<Sent>>, flight: set<SeqId>) {
    log.events.Keys == log.received.Keys && log.fed.Keys == log.received.Keys && sent.Keys == log.received.Keys &&
    forall s :: s in sent ==>
      SentRight(log.received[s], log.events[s], sent[s]) &&
      (Answered(log.events[s]) || s in flight || SentIds(sent[s]) == log.fed[s])
  }

  /** The part of the batch that is sent for a sequence, or nothing. */
  ghost function PartFor(metas: seq<SequenceMeta>, chunks: seq<seq<nat>>, s: SeqId): seq<Sent>
    requires |metas| == |chunks| && forall j :: 0 <= j < |metas| ==> |metas[j].positions| == |chunks[j]|
  {
    if j :| 0 <= j < |metas| && metas[j].seqId == s then Pairs(metas[j].positions, chunks[j]) else []
  }

  /** What has been sent when the batch has been handed over. */
  ghost function SentWith(sent: map<SeqId, seq<Sent>>, metas: seq<SequenceMeta>,
                          chunks: seq<seq<nat>>): map<SeqId, seq<Sent>>
    requires |metas| == |chunks| && forall j :: 0 <= j < |metas| ==> |metas[j].positions| == |chunks[j]|
  {
    map s | s in sent :: sent[s] + PartFor(metas, chunks, s)
  }

  /** The sequences of the batch have been sent their chunks on top of what they have been fed. */
  ghost predicate HandedOver(log: Log, sent: map<SeqId, seq<Sent>>, metas: seq<SequenceMeta>, chunks: seq<seq<nat>>) {
    |metas| == |chunks| && forall j :: 0 <= j < |metas| ==>
      metas[j].seqId in sent && metas[j].seqId in log.fed &&
      SentIds(sent[metas[j].seqId]) == log.fed[metas[j].seqId] + chunks[j]
  }

  lemma {:induction false} SentOpened(log: Log, sent: map<SeqId, seq<Sent>>, r: Request)
    requires SentOk(log, sent, {}) && r.seqId !in log.received
    ensures SentOk(Opened(log, r), sent[r.seqId := []], {})
  {
    hide Answered, TokensOf;
    assert SentIds([]) == [];
  }

  lemma {:induction false} SentPosted(log: Log, sent: map<SeqId, seq<Sent>>, s: SeqId, es: seq<Event>,
                                      flight: set<SeqId>)
    requires SentOk(log, sent, flight) && s in log.events && Answered(log.events[s] + es)
    ensures SentOk(Post(log, s, es), sent, flight - {s}) && (flight == {} ==> SentOk(Post(log, s, es), sent, {}))
  {
    hide Answered, SentRight;
    SentStaysRight(log.received[s], log.events[s], log.events[s] + es, sent[s]);
  }

  /** One part of the batch goes on top of what its sequence has been fed, and is right. */
  lemma {:induction false} PartRight(meta: SequenceMeta, isPrefill: bool, chunk: seq<nat>, active: Active,
                                     limits: Limits, log: Log, sent: seq<Sent>)
    requires PartOk(meta, isPrefill, chunk, active, limits) && Running(meta.seqId, active[meta.seqId], log)
    requires InPlace(sent) && SentIds(sent) == log.fed[meta.seqId]
    ensures SentIds(sent + Pairs(meta.positions, chunk)) == log.fed[meta.seqId] + chunk
    ensures SentRight(log.received[meta.seqId], log.events[meta.seqId], sent + Pairs(meta.positions, chunk))
  {
    hide TokensOf, WellFed;
    var q, sent' := active[meta.seqId], sent + Pairs(meta.positions, chunk);
    PartContinues(meta, isPrefill, chunk, active, limits, log);
    TokensOfStream(q.generated);
    assert SentIds(sent') == SentIds(sent) + chunk;
  }

  lemma {:induction false} PartForAt(metas: seq<SequenceMeta>, chunks: seq<seq<nat>>, j: nat)
    requires |metas| == |chunks| && (forall j :: 0 <= j < |metas| ==> |metas[j].positions| == |chunks[j]|) &&
             DistinctSeqs(metas) && j < |metas|
    ensures PartFor(metas, chunks, metas[j].seqId) == Pairs(metas[j].positions, chunks[j])
  {
  }

  /** The parts of a plan have as many positions as ids. */
  lemma {:induction false} PlanSizes(plan: BatchPlan, chunks: seq<seq<nat>>, active: Active, limits: Limits)
    requires PlanOk(plan, chunks, active, limits)
    ensures |plan.metas| == |chunks| && forall j :: 0 <= j < |plan.metas| ==> |plan.metas[j].positions| == |chunks[j]|
  {
    hide Concat;
    forall j | 0 <= j < |plan.metas|
      ensures |plan.metas[j].positions| == |chunks[j]|
    {
      assert PartOk(plan.metas[j], plan.isPrefill[j], chunks[j], active, limits);
    }
  }

  /** Handing a batch over. */
  lemma {:induction false} HandOverKeeps(plan: BatchPlan, chunks: seq<seq<nat>>, limits: Limits,
                                         pending: seq<Request>, active: Active, log: Log, sent: map<SeqId, seq<Sent>>)
    requires PlanOk(plan, chunks, active, limits) && StateOk(pending, active, log, {}) && SentOk(log, sent, {})
    ensures |plan.metas| == |chunks| && forall j :: 0 <= j < |plan.metas| ==> |plan.metas[j].positions| == |chunks[j]|
    ensures var sent' := SentWith(sent, plan.metas, chunks);
            SentOk(log, sent', BatchIds(plan.metas)) && HandedOver(log, sent', plan.metas, chunks)
  {
    hide Answered, StateOk, PlanOk, SentRight, SentIds, SentWith, BatchIds;
    PlanSizes(plan, chunks, active, limits);
    var sent' := SentWith(sent, plan.metas, chunks);
    SentWithKeys(sent, plan.metas, chunks);
    forall j | 0 <= j < |plan.metas|
      ensures var s := plan.metas[j].seqId;
              s in sent' && SentIds(sent'[s]) == log.fed[s] + chunks[j] &&
              SentRight(log.received[s], log.events[s], sent'[s])
    {
      PartRightAt(plan, chunks, limits, pending, active, log, sent, j);
    }
    forall s | s in sent
      ensures SentRight(log.received[s], log.events[s], sent'[s]) && (s in BatchIds(plan.metas) || sent'[s] == sent[s])
    {
      if s in BatchIds(plan.metas) { var j := IndexOf(plan.metas, s); } else { NotSent(sent, plan.metas, chunks, s); }
    }
  }

  lemma {:induction false} IndexOf(metas: seq<SequenceMeta>, s: SeqId) returns (j: nat)
    requires s in BatchIds(metas)
    ensures j < |metas| && metas[j].seqId == s
  {
    j :| 0 <= j < |metas| && metas[j].seqId == s;
  }

  lemma {:induction false} SentWithKeys(sent: map<SeqId, seq<Sent>>, metas: seq<SequenceMeta>, chunks: seq<seq<nat>>)
    requires |metas| == |chunks| && forall j :: 0 <= j < |metas| ==> |metas[j].positions| == |chunks[j]|
    ensures SentWith(sent, metas, chunks).Keys == sent.Keys
  {
  }

  lemma {:induction false} NotSent(sent: map<SeqId, seq<Sent>>, metas: seq<SequenceMeta>, chunks: seq<seq<nat>>,
                                   s: SeqId)
    requires |metas| == |chunks| && (forall j :: 0 <= j < |metas| ==> |metas[j].positions| == |chunks[j]|) &&
             s !in BatchIds(metas) && s in sent
    ensures SentWith(sent, metas, chunks)[s] == sent[s]
  {
    assert forall j :: 0 <= j < |metas| ==> metas[j].seqId in BatchIds(metas);
  }

  lemma {:induction false} PartRightAt(plan: BatchPlan, chunks: seq<seq<nat>>, limits: Limits, pending: seq<Request>,
                                       active: Active, log: Log, sent: map<SeqId, seq<Sent>>, j: nat)
    requires PlanOk(plan, chunks, active, limits) && StateOk(pending, active, log, {}) && SentOk(log, sent, {}) &&
             j < |plan.metas|
    ensures |plan.metas| == |chunks| && forall j :: 0 <= j < |plan.metas| ==> |plan.metas[j].positions| == |chunks[j]|
    ensures var s, sent' := plan.metas[j].seqId, SentWith(sent, plan.metas, chunks);
            s in sent' && SentIds(sent'[s]) == log.fed[s] + chunks[j] &&
            SentRight(log.received[s], log.events[s], sent'[s])
  {
    hide Answered, Waiting, Running, Concat, TokensOf, StateOk;
    PlanSizes(plan, chunks, active, limits);
    PlanFacts(plan, chunks, active, limits);
    var s := plan.metas[j].seqId;
    PlacedIn(pending, active, log, s);
    RunningUnanswered(s, active[s], log);
    PartForAt(plan.metas, chunks, j);
    PartRight(plan.metas[j], plan.isPrefill[j], chunks[j], active, limits, log, sent[s]);
  }

  lemma {:induction false} PlacedIn(pending: seq<Request>, active: Active, log: Log, s: SeqId)
    requires StateOk(pending, active, log, {}) && s in active
    ensures Running(s, active[s], log) && s in log.received && s in log.events
  {
    hide Waiting, Answered, Running;
    assert Placed(s, active[s], log, {});
    PlacedKnown(s, active[s], log, {});
  }

  // ----- what is generated -----

  /** Generation without caches, batches or workers, from `tokens` on; none if the sampler fails. */
  function NaiveFrom(m: Model, req: Request, tokens: seq<nat>): Option<seq<nat>>
    requires req.prompt != []
    decreases if tokens == [] then 1 else 0, req.maxTokens - |tokens|
  {
    match req.sample(ReferenceLogits(m, req.prompt + tokens))
    case Err(_) => None
    case Ok(t) =>
      if t in req.stopTokens || |tokens| + 1 >= req.maxTokens then Some(tokens + [t])
      else NaiveFrom(m, req, tokens + [t])
  }

  /**
   Naive generation samples each id on the reference logits of all before it.  It ends with the
   first stop token, or when it has sampled as many as were asked for.
   */
  lemma {:induction false} NaiveEnds(m: Model, req: Request, tokens: seq<nat>)
    requires req.prompt != [] && NaiveFrom(m, req, tokens).Some?
    ensures var all := NaiveFrom(m, req, tokens).value;
            tokens < all && |all| <= Max(|tokens| + 1, req.maxTokens) &&
            (all[|all| - 1] in req.stopTokens || |all| >= req.maxTokens) &&
            (forall i :: |tokens| <= i < |all| - 1 ==> all[i] !in req.stopTokens) &&
            forall i :: |tokens| <= i < |all| ==> req.sample(ReferenceLogits(m, req.prompt + all[..i])) == Ok(all[i])
    decreases if tokens == [] then 1 else 0, req.maxTokens - |tokens|
  {
    hide ReferenceLogits;
    var t := req.sample(ReferenceLogits(m, req.prompt + tokens)).value;
    var all := NaiveFrom(m, req, tokens).value;
    if !(t in req.stopTokens || |tokens| + 1 >= req.maxTokens) { NaiveEnds(m, req, tokens + [t]); }
    assert all[..|tokens|] == tokens && all[|tokens|] == t;
  }

  function Max(a: nat, b: nat): nat { if a < b then b else a }

  /** The tokens that naive generation samples, after `tokens`, until it ends or the sampler fails. */
  function NaivePath(m: Model, req: Request, tokens: seq<nat>): seq<nat>
    requires req.prompt != []
    decreases if tokens == [] then 1 else 0, req.maxTokens - |tokens|
  {
    match req.sample(ReferenceLogits(m, req.prompt + tokens))
    case Err(_) => tokens
    case Ok(t) =>
      if t in req.stopTokens || |tokens| + 1 >= req.maxTokens then tokens + [t]
      else NaivePath(m, req, tokens + [t])
  }

  /** Each of them is sampled on the reference logits of all before it, and only the last may be a stop token. */
  lemma {:induction false} PathSampled(m: Model, req: Request, tokens: seq<nat>)
    requires req.prompt != []
    ensures var path := NaivePath(m, req, tokens);
            tokens <= path && |path| <= Max(|tokens| + 1, req.maxTokens) &&
            (forall i :: |tokens| <= i < |path| - 1 ==> path[i] !in req.stopTokens) &&
            (forall i :: |tokens| <= i < |path| ==>
               req.sample(ReferenceLogits(m, req.prompt + path[..i])) == Ok(path[i])) &&
            (NaiveFrom(m, req, tokens).None? ==> req.sample(ReferenceLogits(m, req.prompt + path)).Err?)
    decreases if tokens == [] then 1 else 0, req.maxTokens - |tokens|
  {
    hide ReferenceLogits;
    var path, next := NaivePath(m, req, tokens), req.sample(ReferenceLogits(m, req.prompt + tokens));
    if next.Ok? {
      if !(next.value in req.stopTokens || |tokens| + 1 >= req.maxTokens) {
        PathSampled(m, req, tokens + [next.value]);
      }
      assert path[..|tokens|] == tokens && path[|tokens|] == next.value;
    }
  }

  /** Naive generation that comes to its end gives all that it samples. */
  lemma {:induction false} PathExtends(m: Model, req: Request, tokens: seq<nat>)
    requires req.prompt != []
    ensures tokens <= NaivePath(m, req, tokens)
    ensures NaiveFrom(m, req, tokens).Some? ==> NaiveFrom(m, req, tokens).value == NaivePath(m, req, tokens)
    decreases if tokens == [] then 1 else 0, req.maxTokens - |tokens|
  {
    hide ReferenceLogits;
    match req.sample(ReferenceLogits(m, req.prompt + tokens))
    case Err(_) =>
    case Ok(t) =>
      if !(t in req.stopTokens || |tokens| + 1 >= req.maxTokens) { PathExtends(m, req, tokens + [t]); }
  }

  /** What the sequence has generated is the beginning of what naive generation samples, and it can go on as that. */
  ghost predicate TrueTo(m: Model, q: Sequence) {
    q.req.prompt != [] ==>
      NaiveFrom(m, q.req, []) == NaiveFrom(m, q.req, q.generated) &&
      NaivePath(m, q.req, []) == NaivePath(m, q.req, q.generated)
  }

  /** The tokens shown are the first that naive generation samples. */
  ghost predicate ShownRight(m: Model, req: Request, es: seq<Event>) {
    if req.prompt == [] then TokensOf(es) == [] else TokensOf(es) <= NaivePath(m, req, [])
  }

  lemma {:induction false} StreamRight(m: Model, q: Sequence)
    requires TrueTo(m, q) && (q.req.prompt == [] ==> q.generated == [])
    ensures ShownRight(m, q.req, Stream(q.generated))
  {
    hide NaivePath, NaiveFrom;
    TokensOfStream(q.generated);
    if q.req.prompt != [] { PathExtends(m, q.req, q.generated); }
  }

  lemma {:induction false} RunningShown(m: Model, s: SeqId, q: Sequence, log: Log)
    requires Running(s, q, log) && TrueTo(m, q)
    ensures ShownRight(m, log.received[s], log.events[s])
  {
    hide TrueTo, ShownRight, NoStop;
    StreamRight(m, q);
  }

  lemma {:induction false} NoMoreTokens(es: seq<Event>, e: Event)
    requires !e.Token?
    ensures TokensOf(es + [e]) == TokensOf(es)
  {
    assert (es + [e])[..|es|] == es;
  }

  /** The tokens that are shown: all that were generated, without a stop token at the end. */
  function Shown(q: Sequence): seq<nat> {
    if q.generated != [] && LastOr0(q.generated) in q.req.stopTokens then q.generated[..|q.generated| - 1]
      else q.generated
  }

  /**
   An ended sequence: the sampler failed, as it does in naive generation, or the sequence generated
   and showed what naive generation gives.
   */
  ghost predicate EndedRight(m: Model, q: Sequence, es: seq<Event>) {
    ShownRight(m, q.req, es) && q.req.prompt != [] &&
    if NaiveFrom(m, q.req, []).None? then es != [] && es[|es| - 1] == ErrorEvent
    else NaiveFrom(m, q.req, []) == Some(q.generated) && es == Stream(Shown(q))
  }

  /** A chunk that ends the prefill, or a decode step, completes what has been generated so far. */
  lemma {:induction false} FedAll(q: Sequence, fed: seq<nat>, size: nat, isPrefill: bool, chunk: seq<nat>)
    requires WellFed(q, fed) && |chunk| == size
    requires if isPrefill then !q.prefillDone && q.remaining != [] && size <= |q.remaining| &&
             chunk == q.remaining[..size]
             else q.prefillDone && chunk == [LastOr0(q.generated)]
    ensures q.req.prompt != []
    ensures !(isPrefill && q.remaining[size..] != []) ==> fed + chunk == q.req.prompt + q.generated
  {
    if isPrefill {
      if q.remaining[size..] == [] { assert q.remaining[..size] == q.remaining && q.req.prompt + [] == q.req.prompt; }
    } else {
      var n := |q.generated| - 1;
      assert q.generated == q.generated[..n] + [q.generated[n]];
    }
  }

  /** A sampled token goes on as naive generation does, or ends as it does. */
  lemma {:induction false} TokenIsNaive(m: Model, q: Sequence, q': Sequence, t: nat)
    requires TrueTo(m, q) && q.req.prompt != [] && q.req.sample(ReferenceLogits(m, q.req.prompt + q.generated)) == Ok(t)
    requires q'.req == q.req && q'.generated == q.generated + [t]
    ensures if t in q.req.stopTokens then EndedRight(m, q', Stream(q.generated))
            else if |q'.generated| >= q.req.maxTokens then EndedRight(m, q', Stream(q.generated) + [Token(t)])
            else TrueTo(m, q')
  {
    hide ReferenceLogits;
    StreamSnoc(q.generated, t);
    TokensOfStream(q.generated);
    TokensOfStream(q.generated + [t]);
    PathExtends(m, q.req, q.generated);
    assert (q.generated + [t])[..|q.generated|] == q.generated;
  }

  /** A sampler that fails here fails in naive generation. */
  lemma {:induction false} FailsAlike(m: Model, q: Sequence)
    requires TrueTo(m, q) && q.req.prompt != [] && q.req.sample(ReferenceLogits(m, q.req.prompt + q.generated)).Err?
    ensures NaiveFrom(m, q.req, []).None?
  {
    hide ReferenceLogits;
  }

  /** On reference logits a running sequence stays true to naive generation, and ends as it does. */
  lemma {:induction false} AdvanceIsNaive(m: Model, s: SeqId, q: Sequence, log: Log, size: nat, isPrefill: bool,
                                          chunk: seq<nat>, logits: Row)
    requires Running(s, q, log) && TrueTo(m, q) && |chunk| == size
    requires if isPrefill then !q.prefillDone && q.remaining != [] && size <= |q.remaining| &&
             chunk == q.remaining[..size]
             else q.prefillDone && chunk == [LastOr0(q.generated)]
    requires log.fed[s] + chunk != [] && logits == ReferenceLogits(m, log.fed[s] + chunk)
    ensures var a := Advance(q, size, isPrefill, logits);
            if a.done then EndedRight(m, a.q, log.events[s] + a.events) else TrueTo(m, a.q)
  {
    hide ReferenceLogits, WellFed, NoStop, NaiveFrom, NaivePath, Stream, Shown;
    FedAll(q, log.fed[s], size, isPrefill, chunk);
    if !(isPrefill && q.remaining[size..] != []) {
      match q.req.sample(logits)
      case Err(_) =>
        StreamRight(m, q);
        NoMoreTokens(log.events[s], ErrorEvent);
        FailsAlike(m, q);
      case Ok(t) =>
        TokenIsNaive(m, q, Advance(q, size, isPrefill, logits).q, t);
        assert log.events[s] + [] == log.events[s];
    }
  }

  // ----- the sampling loop -----

  ghost function IdsOf(ids: seq<SeqId>): set<SeqId> {
    set s | s in ids
  }

  ghost predicate InFirst(metas: seq<SequenceMeta>, n: nat, s: SeqId) {
    exists j :: 0 <= j < n <= |metas| && metas[j].seqId == s
  }

  lemma {:induction false} FirstNext(metas: seq<SequenceMeta>, n: nat)
    requires n < |metas|
    ensures forall s :: InFirst(metas, n + 1, s) <==> InFirst(metas, n, s) || s == metas[n].seqId
  {
  }

  /** The first n sequences of the batch have been fed their chunks; all others are as they were. */
  ghost predicate Moved(metas: seq<SequenceMeta>, n: nat, chunks: seq<seq<nat>>, active: Active, log: Log,
                        active': Active, log': Log) {
    n <= |metas| == |chunks| && active'.Keys == active.Keys && log'.received == log.received &&
    log.fed.Keys == log.received.Keys && log'.fed.Keys == log.received.Keys &&
    log.events.Keys == log.received.Keys && log'.events.Keys == log.received.Keys &&
    (forall j :: 0 <= j < n ==>
       metas[j].seqId in log.fed && log'.fed[metas[j].seqId] == log.fed[metas[j].seqId] + chunks[j]) &&
    (forall s :: s in log.received && !InFirst(metas, n, s) ==>
       AgreesOn(log, log', s) && (s in active ==> active'[s] == active[s]))
  }

  lemma {:induction false} NothingMoved(pending: seq<Request>, active: Active, log: Log, metas: seq<SequenceMeta>,
                                        chunks: seq<seq<nat>>)
    requires StateOk(pending, active, log, {}) && |metas| == |chunks|
    ensures Moved(metas, 0, chunks, active, log, active, log)
  {
    hide Placed, Waiting, Answered;
  }

  lemma {:induction false} MovedNext(metas: seq<SequenceMeta>, n: nat, chunks: seq<seq<nat>>, active: Active,
                                     log: Log, active': Active, log': Log, a: Advanced)
    requires n < |metas| && Moved(metas, n, chunks, active, log, active', log') && DistinctSeqs(metas)
    requires metas[n].seqId in active' && metas[n].seqId in log'.received &&
             log'.fed[metas[n].seqId] == log.fed[metas[n].seqId]
    ensures var s := metas[n].seqId;
            Moved(metas, n + 1, chunks, active, log, active'[s := a.q], Progressed(log', s, chunks[n], a.events))
  {
    hide InFirst, DistinctSeqs;
    FirstNext(metas, n);
    var s := metas[n].seqId;
    var active'', log'' := active'[s := a.q], Progressed(log', s, chunks[n], a.events);
    assert active''.Keys == active.Keys && log''.fed.Keys == log.received.Keys &&
      log''.events.Keys == log.received.Keys;
    forall j | 0 <= j < n + 1
      ensures metas[j].seqId in log.fed && log''.fed[metas[j].seqId] == log.fed[metas[j].seqId] + chunks[j]
    {
      if j < n { DistinctAt(metas, j, n); }
    }
    forall t | t in log.received && !InFirst(metas, n + 1, t)
      ensures AgreesOn(log, log'', t) && (t in active ==> active''[t] == active[t])
    {
      assert AgreesOn(log, log', t);
    }
  }

  /** When the sequences of the batch have been fed their chunks, all are in step with what was sent. */
  lemma {:induction false} SentMoved(metas: seq<SequenceMeta>, chunks: seq<seq<nat>>, active: Active, log: Log,
                                     active': Active, log': Log, sent: map<SeqId, seq<Sent>>)
    requires Moved(metas, |metas|, chunks, active, log, active', log') && Later(log, log')
    requires SentOk(log, sent, BatchIds(metas)) && HandedOver(log, sent, metas, chunks)
    ensures SentOk(log', sent, {})
  {
    hide Answered, SentRight, SentIds;
    forall s | s in sent
      ensures SentRight(log'.received[s], log'.events[s], sent[s])
      ensures Answered(log'.events[s]) || SentIds(sent[s]) == log'.fed[s]
    {
      assert Continued(log.events[s], log'.events[s]);
      SentStaysRight(log.received[s], log.events[s], log'.events[s], sent[s]);
      if s in BatchIds(metas) {
        var j :| 0 <= j < |metas| && metas[j].seqId == s;
      } else {
        assert !InFirst(metas, |metas|,
                        s) by { assert forall j :: 0 <= j < |metas| ==> metas[j].seqId in BatchIds(metas); }
        assert AgreesOn(log, log', s);
      }
    }
  }

  lemma {:induction false} DistinctAt(metas: seq<SequenceMeta>, i: nat, j: nat)
    requires DistinctSeqs(metas) && i < j < |metas|
    ensures metas[i].seqId != metas[j].seqId
  {
  }

  // ----- the work that is left -----

  /** Prompt ids to feed and tokens to generate. */
  function Need(q: Sequence): (n: nat)
    ensures n > 0
  {
    |q.remaining| + if |q.generated| < q.req.maxTokens then q.req.maxTokens - |q.generated| else 1
  }

  ghost function Total(active: Active): nat
    decreases |active|
  {
    if active == map[] then 0 else var s :| s in active; Need(active[s]) + Total(active - {s})
  }

  lemma {:induction false} TotalWithout(active: Active, s: SeqId)
    requires s in active
    ensures Total(active) == Need(active[s]) + Total(active - {s})
    decreases |active|
  {
    var t :| t in active && Total(active) == Need(active[t]) + Total(active - {t});
    if t != s {
      TotalWithout(active - {t}, s);
      TotalWithout(active - {s}, t);
      assert active - {t} - {s} == active - {s} - {t};
    }
  }

  /** Fewer sequences that need no more: less work, strictly less if one of them is gone or needs less. */
  lemma {:induction false} TotalShrinks(active: Active, active': Active, s: SeqId)
    requires active'.Keys <= active.Keys && forall t :: t in active' ==> Need(active'[t]) <= Need(active[t])
    ensures Total(active') <= Total(active)
    ensures s in active && (s !in active' || Need(active'[s]) < Need(active[s])) ==> Total(active') < Total(active)
    decreases |active|
  {
    if active == map[] {
      assert active' == map[];
    } else {
      var t := if s in active then s else var t :| t in active; t;
      TotalWithout(active, t);
      TotalShrinks(active - {t}, active' - {t}, t);
      if t in active' { TotalWithout(active', t); } else { assert active' - {t} == active'; }
    }
  }

  /** Waiting requests count what they will need, and their admission. */
  ghost function PendingTotal(pending: seq<Request>): nat {
    if pending == [] then 0
    else
      var r := pending[0];
      Need(Sequence(r, |r.prompt|, [], r.prompt, false)) + 1 + PendingTotal(pending[1..])
  }

  ghost function Load(pending: seq<Request>, active: Active): nat {
    PendingTotal(pending) + Total(active)
  }

  /** Admitting or refusing the first request is work done. */
  lemma {:induction false} AdmitLess(pending: seq<Request>, active: Active, admitted: bool)
    requires pending != [] && pending[0].seqId !in active
    ensures var r := pending[0];
            Load(pending[1..], if admitted then active[r.seqId := Sequence(r, |r.prompt|, [], r.prompt, false)]
                 else active) < Load(pending, active)
  {
    var r := pending[0];
    var q := Sequence(r, |r.prompt|, [], r.prompt, false);
    TotalWithout(active[r.seqId := q], r.seqId);
    assert active[r.seqId := q] - {r.seqId} == active;
  }

  /** Requests that are not answered have something to prefill. */
  ghost predicate Prompted(log: Log) {
    log.events.Keys == log.received.Keys &&
    forall s :: s in log.received && !Answered(log.events[s]) ==> log.received[s].prompt != []
  }

  lemma {:induction false} PromptedStays(log: Log, log': Log)
    requires Prompted(log) && Later(log, log') && log'.received.Keys == log.received.Keys
    ensures Prompted(log')
  {
    hide Answered, Continued;
    forall s | s in log'.received && !Answered(log'.events[s])
      ensures log'.received[s].prompt != []
    {
      if Answered(log.events[s]) { AnsweredStays(log.events[s], log'.events[s]); }
    }
  }

  /** There is room in a batch, and a sequence to fill it. */
  ghost predicate Busy(active: Active, limits: Limits) {
    limits.maxBatchTokens > 0 && limits.maxBatchSize > 0 && limits.maxPrefillTokens > 0 &&
    exists s :: s in active && Schedulable(active[s])
  }

  lemma {:induction false} PromptedBusy(pending: seq<Request>, active: Active, log: Log, limits: Limits)
    requires StateOk(pending, active, log, {}) && Prompted(log) && active != map[]
    requires limits.maxBatchTokens > 0 && limits.maxBatchSize > 0 && limits.maxPrefillTokens > 0
    ensures Busy(active, limits)
  {
    hide Waiting, Answered;
    var s :| s in active;
    assert Placed(s, active[s], log, {});
    RunningUnanswered(s, active[s], log);
    SchedulableIffPrompt(s, active[s], log);
  }

  /** A batch that is through leaves less work, if it had a part. */
  lemma {:induction false} BatchShrinks(metas: seq<SequenceMeta>, chunks: seq<seq<nat>>, active: Active, log: Log,
                                        active': Active, log': Log, ending: set<SeqId>, active'': Active)
    requires metas != [] && Moved(metas, |metas|, chunks, active, log, active', log') &&
             Shrunk(metas, |metas|, active, active', ending)
    requires active.Keys <= log.received.Keys
    requires active''.Keys == active'.Keys - ending && forall t :: t in active'' ==> active''[t] == active'[t]
    ensures Total(active'') < Total(active)
  {
    forall t | t in active''
      ensures Need(active''[t]) <= Need(active[t])
    {
      if InFirst(metas, |metas|, t) { var j :| 0 <= j < |metas| && metas[j].seqId == t; }
    }
    TotalShrinks(active, active'', metas[0].seqId);
  }

  /** A sequence that runs on needs less than before. */
  lemma {:induction false} AdvanceShrinks(s: SeqId, q: Sequence, log: Log, size: nat, isPrefill: bool, logits: Row)
    requires Running(s, q, log) && (if isPrefill then !q.prefillDone && 0 < size <= |q.remaining| else q.prefillDone)
    ensures var a := Advance(q, size, isPrefill, logits);
            !a.done ==> Need(a.q) < Need(q)
  {
  }

  /** The first n sequences of the batch have ended or need less. */
  ghost predicate Shrunk(metas: seq<SequenceMeta>, n: nat, active: Active, active': Active, ending: set<SeqId>) {
    n <= |metas| && active'.Keys == active.Keys &&
    forall j :: 0 <= j < n ==>
      metas[j].seqId in active && (metas[j].seqId in ending ||
                                   Need(active'[metas[j].seqId]) < Need(active[metas[j].seqId]))
  }

  lemma {:induction false} NothingShrunk(metas: seq<SequenceMeta>, active: Active)
    ensures Shrunk(metas, 0, active, active, {})
  {
  }

  lemma {:induction false} ShrunkNext(metas: seq<SequenceMeta>, n: nat, active: Active, active': Active,
                                      ending: set<SeqId>, a: Advanced)
    requires n < |metas| && DistinctSeqs(metas) && Shrunk(metas, n, active, active', ending) && metas[n].seqId in active
    requires a.done || Need(a.q) < Need(active[metas[n].seqId])
    ensures var s := metas[n].seqId;
            Shrunk(metas, n + 1, active, active'[s := a.q], if a.done then ending + {s} else ending)
  {
  }

  /** Every row is the reference logits of what its sequence has then been fed. */
  ghost predicate Truthful(m: Model, metas: seq<SequenceMeta>, log: Log, chunks: seq<seq<nat>>, logits: seq<Row>) {
    |metas| == |chunks| == |logits| &&
    forall i :: 0 <= i < |metas| ==> TruthfulAt(m, metas[i].seqId, log, chunks[i], logits[i])
  }

  ghost predicate TruthfulAt(m: Model, s: SeqId, log: Log, chunk: seq<nat>, row: Row) {
    s in log.fed && log.fed[s] + chunk != [] && row == ReferenceLogits(m, log.fed[s] + chunk)
  }

  ghost predicate SampledRight(m: Model, active: Active, log: Log, ending: set<SeqId>) {
    forall s :: s in active ==>
      if s in ending then s in log.events && EndedRight(m, active[s], log.events[s]) else TrueTo(m, active[s])
  }

  /** The next sequence of the batch is as the plan found it. */
  lemma {:induction false} NextPart(plan: BatchPlan, chunks: seq<seq<nat>>, limits: Limits, i: nat, active: Active,
                                    log: Log, active': Active, log': Log, pending: seq<Request>, ending: set<SeqId>)
    requires PlanOk(plan, chunks, active, limits) && i < |plan.metas| &&
             Moved(plan.metas, i, chunks, active, log, active', log')
    requires StateOk(pending, active', log', ending) && forall s :: s in ending ==> InFirst(plan.metas, i, s)
    ensures DistinctSeqs(plan.metas)
    ensures var s, meta := plan.metas[i].seqId, plan.metas[i];
            s in active && s in active' && active'[s] == active[s] && s !in ending && AgreesOn(log, log', s) &&
            Running(s, active'[s], log') && meta.numTokens == |chunks[i]| &&
            (limits.maxPrefillTokens > 0 ==> chunks[i] != []) &&
            if plan.isPrefill[i] then
              !active'[s].prefillDone && active'[s].remaining != [] && meta.numTokens <= |active'[s].remaining| &&
              chunks[i] == active'[s].remaining[..meta.numTokens]
            else active'[s].prefillDone && chunks[i] == [LastOr0(active'[s].generated)]
  {
    hide Waiting, Answered, Running, Ended;
    var s := plan.metas[i].seqId;
    assert PartOk(plan.metas[i], plan.isPrefill[i], chunks[i], active, limits);
    assert !InFirst(plan.metas, i, s);
    assert Placed(s, active'[s], log', ending);
    PlacedKnown(s, active'[s], log', ending);
  }

  lemma {:induction false} SampledNext(m: Model, plan: BatchPlan, chunks: seq<seq<nat>>, logits: seq<Row>, i: nat,
                                       active: Active, log: Log, active': Active, log': Log, ending: set<SeqId>)
    requires i < |plan.metas| == |plan.isPrefill| && Truthful(m, plan.metas, log, chunks, logits)
    requires SampledRight(m, active', log', ending)
    requires var s, meta := plan.metas[i].seqId, plan.metas[i];
             s in active' && s !in ending && AgreesOn(log, log', s) && Running(s, active'[s], log') &&
             meta.numTokens == |chunks[i]| &&
             if plan.isPrefill[i] then
               !active'[s].prefillDone && active'[s].remaining != [] && meta.numTokens <= |active'[s].remaining| &&
               chunks[i] == active'[s].remaining[..meta.numTokens]
             else active'[s].prefillDone && chunks[i] == [LastOr0(active'[s].generated)]
    ensures var s := plan.metas[i].seqId;
            var a := Advance(active'[s], plan.metas[i].numTokens, plan.isPrefill[i], logits[i]);
            SampledRight(m, active'[s := a.q], Progressed(log', s, chunks[i], a.events), if a.done then ending + {s}
                         else ending)
  {
    hide Running, Advance, EndedRight, TrueTo, ReferenceLogits;
    var s := plan.metas[i].seqId;
    assert TruthfulAt(m, s, log, chunks[i], logits[i]);
    AdvanceIsNaive(m, s, active'[s], log', plan.metas[i].numTokens, plan.isPrefill[i], chunks[i], logits[i]);
  }

  // ----- the loop's own state -----

  /**
   The events of a request that is served to the end, given the ids that were sampled for it: these
   ids, but for a stop token at the end; then how many were sampled, and whether a stop token ended
   them or the limit did.
   */
  ghost predicate Tells(req: Request, tokens: seq<nat>, es: seq<Event>) {
    tokens != [] && es != [] &&
    var last, end := tokens[|tokens| - 1], es[|es| - 1];
    es[..|es| - 1] == Stream(if last in req.stopTokens then tokens[..|tokens| - 1] else tokens) &&
    end.Finished? && end.completionTokens == |tokens| &&
    (end.reason == Stop <==> last in req.stopTokens) &&
    (end.reason == Length <==> last !in req.stopTokens && |tokens| >= req.maxTokens)
  }

  /** The tokens shown are the first of naive generation, and an answer that holds no error is what it gives. */
  ghost predicate AnswerRight(m: Model, req: Request, es: seq<Event>) {
    ShownRight(m, req, es) &&
    (ErrorEvent in es ||
     (req.prompt != [] && NaiveFrom(m, req, []).Some? && Tells(req, NaiveFrom(m, req, []).value, es)))
  }

  ghost predicate RightAnswers(m: Model, pending: seq<Request>, active: Active, log: Log) {
    log.events.Keys == log.received.Keys &&
    forall s :: s in log.received && s !in active && !IsPending(pending, s) ==>
      AnswerRight(m, log.received[s], log.events[s])
  }

  /** A step that touches sequence s alone keeps the answers right, if it leaves s unanswered or answers it rightly. */
  lemma {:induction false} RightStep(m: Model, pending: seq<Request>, active: Active, log: Log,
                                     pending': seq<Request>, active': Active, log': Log, s: SeqId)
    requires RightAnswers(m, pending, active, log) && log'.events.Keys == log'.received.Keys
    requires forall t :: t in log'.received && t != s ==>
      t in log.received && log'.received[t] == log.received[t] && log'.events[t] == log.events[t]
    requires forall t :: t != s ==>
      (t in active' <==> t in active) && (IsPending(pending', t) <==> IsPending(pending, t))
    requires s in active' || IsPending(pending', s) ||
             (s in log'.received && AnswerRight(m, log'.received[s], log'.events[s]))
    ensures RightAnswers(m, pending', active', log')
  {
    hide AnswerRight, IsPending;
  }

  lemma {:induction false} ErrorRight(m: Model, req: Request, es: seq<Event>)
    requires ShownRight(m, req, es)
    ensures AnswerRight(m, req, es + [ErrorEvent])
  {
    hide NaivePath, NaiveFrom;
    NoMoreTokens(es, ErrorEvent);
    assert (es + [ErrorEvent])[|es|] == ErrorEvent;
  }

  lemma {:induction false} NothingShown(m: Model, req: Request)
    ensures ShownRight(m, req, [])
  {
    hide NaivePath;
  }

  lemma {:induction false} SampledTrue(m: Model, active: Active, log: Log, s: SeqId)
    requires SampledRight(m, active, log, {}) && s in active
    ensures TrueTo(m, active[s])
  {
  }

  lemma {:induction false} FinishedRight(m: Model, q: Sequence, es: seq<Event>)
    requires EndedRight(m, q, es)
    ensures AnswerRight(m, q.req, es + [FinalEvent(q)])
  {
    hide NaiveFrom, NaivePath;
    NoMoreTokens(es, FinalEvent(q));
    if es != [] && es[|es| - 1] == ErrorEvent {
      assert (es + [FinalEvent(q)])[|es| - 1] == ErrorEvent;
    } else {
      NaiveEnds(m, q.req, []);
      assert (es + [FinalEvent(q)])[..|es|] == es;
    }
  }

  lemma {:induction false} StartsTrue(m: Model, r: Request)
    ensures TrueTo(m, Sequence(r, |r.prompt|, [], r.prompt, false))
  {
  }

  /** Errors are sent only for requests on which naive generation fails. */
  ghost predicate Blameless(m: Model, log: Log) {
    forall s :: s in log.received && s in log.events && ErrorEvent in log.events[s] ==>
      log.received[s].prompt != [] && NaiveFrom(m, log.received[s], []).None?
  }

  /** Exactly these requests have since been sent an error, and nothing else has been sent. */
  ghost predicate ErrorsFor(was: Log, now: Log, ids: set<SeqId>) {
    was.events.Keys == now.events.Keys &&
    forall s :: s in was.events ==> now.events[s] == was.events[s] + if s in ids then [ErrorEvent] else []
  }

  lemma {:induction false} ErrorsJoin(was: Log, mid: Log, now: Log, first: set<SeqId>, more: set<SeqId>)
    requires ErrorsFor(was, mid, first) && ErrorsFor(mid, now, more) && first !! more
    ensures ErrorsFor(was, now, first + more)
  {
  }

  lemma {:induction false} ErrorNext(was: Log, mid: Log, now: Log, ids: set<SeqId>, s: SeqId)
    requires ErrorsFor(was, mid, ids) && ErrorsFor(mid, now, {s}) && s !in ids
    ensures ErrorsFor(was, now, ids + {s})
  {
  }

  lemma {:induction false} NoErrors(log: Log)
    ensures ErrorsFor(log, log, {})
  {
  }

  ghost function WaitingIds(pending: seq<Request>): set<SeqId> {
    set i | 0 <= i < |pending| :: pending[i].seqId
  }

  lemma {:induction false} OneFewer(pending: seq<Request>, n: nat)
    requires n < |pending| && DistinctRequests(pending)
    ensures pending[n..][0] == pending[n] && pending[n..][1..] == pending[n + 1..]
    ensures pending[n].seqId !in WaitingIds(pending[..n])
    ensures WaitingIds(pending[..n + 1]) == WaitingIds(pending[..n]) + {pending[n].seqId}
  {
    assert pending[..n + 1] == pending[..n] + [pending[n]];
  }

  lemma {:induction false} WaitApart(pending: seq<Request>, active: Active, log: Log)
    requires StateOk(pending, active, log, {})
    ensures DistinctRequests(pending) && WaitingIds(pending) !! active.Keys
  {
    hide Placed, Answered;
  }

  lemma {:induction false} BlamelessOpened(m: Model, log: Log, r: Request)
    requires Blameless(m, log) && r.seqId !in log.received
    ensures Blameless(m, Opened(log, r))
  {
    hide NaiveFrom;
  }

  lemma {:induction false} BlamelessFinished(m: Model, log: Log, s: SeqId, e: Event)
    requires Blameless(m, log) && s in log.events && e.Finished?
    ensures Blameless(m, Post(log, s, [e]))
  {
    hide NaiveFrom;
  }

  lemma {:induction false} NoErrorInStream(tokens: seq<nat>)
    ensures ErrorEvent !in Stream(tokens)
  {
  }

  /** A sequence that has been sampled rightly. */
  lemma {:induction false} BlamelessAt(m: Model, pending: seq<Request>, active: Active, log: Log, ending: set<SeqId>,
                                       s: SeqId)
    requires StateOk(pending, active, log, ending) && SampledRight(m, active, log, ending)
    requires s in active && s in log.events && ErrorEvent in log.events[s]
    ensures s in log.received && log.received[s].prompt != [] && NaiveFrom(m, log.received[s], []).None?
  {
    hide NaiveFrom, ShownRight, Waiting, Answered, WellFed, NoStop, TrueTo, OnlyTokensOrError, Stream;
    assert Placed(s, active[s], log, ending);
    NoErrorInStream(active[s].generated);
    NoErrorInStream(Shown(active[s]));
  }

  /** Sampling on reference logits sends no error but where naive generation fails. */
  lemma {:induction false} BlamelessSampled(m: Model, pending: seq<Request>, metas: seq<SequenceMeta>,
                                            chunks: seq<seq<nat>>, active: Active, log: Log, active': Active,
                                            log': Log, ending: set<SeqId>)
    requires Blameless(m, log) && Moved(metas, |metas|, chunks, active, log, active', log')
    requires forall i :: 0 <= i < |metas| ==> metas[i].seqId in active
    requires StateOk(pending, active', log', ending) && SampledRight(m, active', log', ending)
    ensures Blameless(m, log')
  {
    hide NaiveFrom, StateOk, SampledRight;
    forall s | s in log'.received && s in log'.events && ErrorEvent in log'.events[s]
      ensures log'.received[s].prompt != [] && NaiveFrom(m, log'.received[s], []).None?
    {
      if s in active' {
        BlamelessAt(m, pending, active', log', ending, s);
      } else {
        assert !InFirst(metas, |metas|, s);
        assert AgreesOn(log, log', s);
      }
    }
  }

  /** What the active sequences have been fed. */
  ghost function FedOf(active: Active, log: Log): map<SeqId, seq<nat>> {
    map s | s in active && s in log.fed :: log.fed[s]
  }

  class DistributedLoop {
    const limits: Limits
    ghost const model: Model
    var pending: seq<Request>
    var active: Active
    var degraded: bool
    ghost var log: Log
    ghost var sent: map<SeqId, seq<Sent>>

    ghost predicate Valid()
      reads this
    {
      StateOk(pending, active, log, {}) && SentOk(log, sent, {})
    }

    /**
     Active sequences are true to naive generation, ended ones have ended as it does, and answers
     without an error are what it gives.
     */
    ghost predicate Right(ending: set<SeqId>)
      reads this
    {
      SampledRight(model, active, log, ending) && RightAnswers(model, pending, active, log)
    }

    ghost function Fed(): map<SeqId, seq<nat>>
      reads this
    {
      FedOf(active, log)
    }

    constructor (limits: Limits, ghost model: Model)
      ensures Valid() && Right({}) && pending == [] && active == map[] && !degraded &&
              log == Log(map[], map[], map[]) && sent == map[]
      ensures this.limits == limits && this.model == model
    {
      this.limits := limits;
      this.model := model;
      pending, active, degraded := [], map[], false;
      log, sent := Log(map[], map[], map[]), map[];
    }

    /** A request from the channel; ids are never reused. */
    method Receive(r: Request)
      requires Valid() && r.seqId !in log.received
      modifies this`pending, this`log, this`sent
      ensures Valid() && Later(old(log), log) && log.received == old(log).received[r.seqId := r]
      ensures pending == old(pending) + [r] && Fed() == old(Fed()) && (old(Right({})) ==> Right({}))
      ensures log.events == old(log).events[r.seqId := []] && (Blameless(model, old(log)) ==> Blameless(model, log))
    {
      hide StateOk, SentOk, Later, RightAnswers, SampledRight, Blameless;
      if Blameless(model, log) { BlamelessOpened(model, log, r); }
      ReceiveKeeps(pending, active, log, r);
      SentOpened(log, sent, r);
      if Right({}) { ReceivedRight(model, pending, active, log, r); }
      ReceivedFed(pending, active, log, r);
      pending, sent := pending + [r], sent[r.seqId := []];
      log := Opened(log, r);
    }

    /** The first waiting request is answered with an error. */
    method Refuse()
      requires Valid() && pending != []
      modifies this`pending, this`log
      ensures Valid() && Later(old(log), log) && log.received == old(log).received && pending == old(pending)[1..]
      ensures Fed() == old(Fed()) && (old(Right({})) ==> Right({}))
      ensures ErrorsFor(old(log), log, {old(pending)[0].seqId})
    {
      hide StateOk, SentOk, Later, RightAnswers, SampledRight;
      RefuseKeeps(pending, active, log);
      SentPosted(log, sent, pending[0].seqId, [ErrorEvent], {});
      if Right({}) { RefusedRight(model, pending, active, log); }
      log := Post(log, pending[0].seqId, [ErrorEvent]);
      pending := pending[1..];
    }

    /** Every waiting request is answered with an error. */
    method FailPending()
      requires Valid()
      modifies this`pending, this`log
      ensures Valid() && Later(old(log), log) && log.received == old(log).received && pending == []
      ensures Fed() == old(Fed()) && (old(Right({})) ==> Right({}))
      ensures ErrorsFor(old(log), log, WaitingIds(old(pending)))
    {
      hide StateOk, SentOk, Later, RightAnswers, SampledRight, FedOf, ErrorsFor;
      SomeLater(pending, active, log, {});
      NoErrors(log);
      WaitApart(pending, active, log);
      ghost var n := 0;
      assert WaitingIds(pending[..n]) == {};
      while pending != []
        invariant Valid() && Later(old(log), log) && log.received == old(log).received
        invariant Fed() == old(Fed()) && (old(Right({})) ==> Right({}))
        invariant n <= |old(pending)| && pending == old(pending)[n..]
        invariant ErrorsFor(old(log), log, WaitingIds(old(pending)[..n]))
        decreases |pending|
      {
        ghost var mid := log;
        OneFewer(old(pending), n);
        Refuse();
        ErrorNext(old(log), mid, log, WaitingIds(old(pending)[..n]), old(pending)[n].seqId);
        LaterTransitive(old(log), mid, log);
        n := n + 1;
      }
      assert old(pending)[..n] == old(pending);
    }

    /** An active sequence is answered with an error and removed; it may be one of the batch under way. */
    method Abort(s: SeqId, ghost flight: set<SeqId>)
      requires StateOk(pending, active, log, {}) && SentOk(log, sent, flight) && s in active
      modifies this`active, this`log
      ensures StateOk(pending, active, log, {}) && SentOk(log, sent, flight - {s})
      ensures Later(old(log), log) && log.received == old(log).received && active == old(active) - {s}
      ensures Fed() == old(Fed()) - {s} && (old(Right({})) ==> Right({}))
      ensures ErrorsFor(old(log), log, {s})
    {
      hide StateOk, SentOk, Later, RightAnswers, SampledRight;
      AbortKeeps(pending, active, log, s);
      SentPosted(log, sent, s, [ErrorEvent], flight);
      if Right({}) { AbortedRight(model, pending, active, log, s); }
      log := Post(log, s, [ErrorEvent]);
      active := active - {s};
      assert Fed() == old(Fed()) - {s};
    }

    /** The active ones among `ids` are answered with an error and removed. */
    method AbortEach(ids: seq<SeqId>)
      requires Valid()
      modifies this`active, this`log
      ensures Valid() && Later(old(log), log) && log.received == old(log).received && (old(Right({})) ==> Right({}))
      ensures active.Keys == old(active).Keys - IdsOf(ids)
      ensures ErrorsFor(old(log), log, old(active).Keys * IdsOf(ids))
    {
      hide StateOk, SentOk, Later, RightAnswers, SampledRight, FedOf, ErrorsFor;
      SomeLater(pending, active, log, {});
      assert IdsOf(ids[..0]) == {} && active.Keys * IdsOf(ids[..0]) == {};
      NoErrors(log);
      for i := 0 to |ids|
        invariant Valid() && Later(old(log), log) && log.received == old(log).received && (old(Right({})) ==> Right({}))
        invariant active.Keys == old(active).Keys - IdsOf(ids[..i])
        invariant ErrorsFor(old(log), log, old(active).Keys * IdsOf(ids[..i]))
      {
        assert ids[..i + 1] == ids[..i] + [ids[i]];
        assert IdsOf(ids[..i + 1]) == IdsOf(ids[..i]) + {ids[i]};
        if ids[i] in active {
          ghost var mid := log;
          Abort(ids[i], {});
          assert {} - {ids[i]} == {};
          LaterTransitive(old(log), mid, log);
          ErrorNext(old(log), mid, log, old(active).Keys * IdsOf(ids[..i]), ids[i]);
          assert old(active).Keys * IdsOf(ids[..i + 1]) == old(active).Keys * IdsOf(ids[..i]) + {ids[i]};
        } else {
          assert old(active).Keys * IdsOf(ids[..i + 1]) == old(active).Keys * IdsOf(ids[..i]);
        }
      }
      assert ids[..|ids|] == ids;
    }

    /** The first waiting request, which has got its caches, becomes active. */
    method Admit()
      requires Valid() && pending != []
      modifies this`pending, this`active
      ensures Valid() && pending == old(pending)[1..] && (old(Right({})) ==> Right({}))
      ensures var r := old(pending)[0];
              active == old(active)[r.seqId := Sequence(r, |r.prompt|, [], r.prompt, false)] &&
              Fed() == old(Fed())[r.seqId := []]
    {
      hide StateOk, SentOk, Later, RightAnswers, SampledRight;
      var r := pending[0];
      AdmitKeeps(pending, active, log);
      if Right({}) { AdmittedRight(model, pending, active, log); }
      AdmittedFed(pending, active, log);
      active := active[r.seqId := Sequence(r, |r.prompt|, [], r.prompt, false)];
      pending := pending[1..];
    }

    /** A batch is about to be sent down the pipeline. */
    ghost method HandOver(plan: BatchPlan, chunks: seq<seq<nat>>)
      requires Valid() && PlanOk(plan, chunks, active, limits)
      modifies this`sent
      ensures |plan.metas| == |chunks| && forall j :: 0 <= j < |plan.metas| ==> |plan.metas[j].positions| == |chunks[j]|
      ensures sent == SentWith(old(sent), plan.metas, chunks)
      ensures SentOk(log, sent, BatchIds(plan.metas)) && HandedOver(log, sent, plan.metas, chunks)
    {
      hide StateOk, SentOk, PlanOk, SentWith, HandedOver;
      HandOverKeeps(plan, chunks, limits, pending, active, log, sent);
      sent := SentWith(sent, plan.metas, chunks);
    }

    /**
     The sampling loop.  Every sequence of the batch has then been fed its chunk; those that have
     come to their end are returned, the others run on.  If all were true to naive generation and
     the logits are reference logits, all still are, and those that end do so as it does.
     */
    method Sample(plan: BatchPlan, logits: seq<Row>, ghost chunks: seq<seq<nat>>) returns (completed: seq<SeqId>)
      requires StateOk(pending, active, log, {}) && PlanOk(plan, chunks, active, limits) && |logits| == |plan.metas|
      requires SentOk(log, sent, BatchIds(plan.metas)) && HandedOver(log, sent, plan.metas, chunks)
      modifies this`active, this`log
      ensures active.Keys == old(active).Keys && Later(old(log), log) && log.received == old(log).received
      ensures StateOk(pending, active, log, IdsOf(completed)) && SentOk(log, sent, {})
      ensures Distinct(completed) && IdsOf(completed) <= active.Keys
      ensures Moved(plan.metas, |plan.metas|, chunks, old(active), old(log), active, log)
      ensures forall s :: s in completed ==> InFirst(plan.metas, |plan.metas|, s)
      ensures limits.maxPrefillTokens > 0 ==> Shrunk(plan.metas, |plan.metas|, old(active), active, IdsOf(completed))
      ensures old(Right({})) && Truthful(model, plan.metas, old(log), chunks, logits) ==>
        Right(IdsOf(completed)) && (Blameless(model, old(log)) ==> Blameless(model, log))
    {
      hide StateOk, SentOk, HandedOver, Later, PlanOk, Moved, Shrunk, Need, Truthful, Advance, Running, Ended,
        SampledRight, RightAnswers, Blameless;
      SomeLater(pending, active, log, {});
      PlanFacts(plan, chunks, active, limits);
      completed := [];
      assert IdsOf(completed) == {};
      ghost var was, before := active, log;
      NothingMoved(pending, active, log, plan.metas, chunks);
      NothingShrunk(plan.metas, active);
      for i := 0 to |plan.metas|
        invariant active.Keys == was.Keys && Later(before, log) && log.received == before.received
        invariant StateOk(pending, active, log, IdsOf(completed)) && Distinct(completed) &&
                  IdsOf(completed) <= active.Keys
        invariant Moved(plan.metas, i, chunks, was, before, active, log)
        invariant limits.maxPrefillTokens > 0 ==> Shrunk(plan.metas, i, was, active, IdsOf(completed))
        invariant forall s :: s in completed ==> InFirst(plan.metas, i, s)
        invariant old(Right({})) && Truthful(model, plan.metas, before, chunks, logits) ==>
          SampledRight(model, active, log, IdsOf(completed))
      {
        var s, size := plan.metas[i].seqId, plan.metas[i].numTokens;
        NextPart(plan, chunks, limits, i, was, before, active, log, pending, IdsOf(completed));
        var a := Advance(active[s], size, plan.isPrefill[i], logits[i]);
        AdvanceKeeps(s, active[s], log, size, plan.isPrefill[i], chunks[i], logits[i]);
        if SampledRight(model, was, before, {}) && Truthful(model, plan.metas, before, chunks, logits) &&
        old(Right({})) {
          SampledNext(model, plan, chunks, logits, i, was, before, active, log, IdsOf(completed));
        }
        SampleKeeps(pending, active, log, IdsOf(completed), s, a, chunks[i]);
        ghost var log' := Progressed(log, s, chunks[i], a.events);
        LaterTransitive(before, log, log');
        MovedNext(plan.metas, i, chunks, was, before, active, log, a);
        if limits.maxPrefillTokens > 0 {
          AdvanceShrinks(s, active[s], log, size, plan.isPrefill[i], logits[i]);
          ShrunkNext(plan.metas, i, was, active, IdsOf(completed), a);
        }
        FirstNext(plan.metas, i);
        active, log := active[s := a.q], log';
        if a.done {
          assert IdsOf(completed + [s]) == IdsOf(completed) + {s};
          completed := completed + [s];
        }
      }
      SentMoved(plan.metas, chunks, was, before, active, log, sent);
      if RightAnswers(model, pending, was, before) {
        MovedRight(model, pending, plan.metas, chunks, was, before, active, log);
      }
      if Blameless(model, before) && SampledRight(model, active, log, IdsOf(completed)) {
        BlamelessSampled(model, pending, plan.metas, chunks, was, before, active, log, IdsOf(completed));
      }
    }

    /** A sequence that has ended is told so and removed. */
    method Finish(s: SeqId, ghost ending: set<SeqId>)
      requires StateOk(pending, active, log, ending) && SentOk(log, sent, {}) && s in active && s in ending
      modifies this`active, this`log
      ensures StateOk(pending, active, log, ending - {s}) && SentOk(log, sent, {})
      ensures Later(old(log), log) && log.received == old(log).received
      ensures active == old(active) - {s} && s in old(log).events &&
              log == Post(old(log), s, [FinalEvent(old(active)[s])])
      ensures var q := old(active)[s];
              var last := if q.generated == [] then 0 else q.generated[|q.generated| - 1];
              log.events[s] == old(log).events[s] +
                [Finished(if last in q.req.stopTokens then Stop else Length, |q.generated|)]
      ensures Fed() == old(Fed()) - {s} && (old(Right(ending)) ==> Right(ending - {s}))
      ensures Blameless(model, old(log)) ==> Blameless(model, log)
    {
      hide StateOk, SentOk, Later, RightAnswers, SampledRight, Blameless;
      FinishKeeps(pending, active, log, ending, s);
      if Blameless(model, log) { BlamelessFinished(model, log, s, FinalEvent(active[s])); }
      SentPosted(log, sent, s, [FinalEvent(active[s])], {});
      if Right(ending) { EndedRightly(model, pending, active, log, ending, s); }
      log := Post(log, s, [FinalEvent(active[s])]);
      active := active - {s};
      assert Fed() == old(Fed()) - {s};
    }
  }

  // ----- the answers stay right -----

  lemma {:induction false} StateKeys(pending: seq<Request>, active: Active, log: Log, ending: set<SeqId>)
    requires StateOk(pending, active, log, ending)
    ensures log.events.Keys == log.received.Keys == log.fed.Keys && active.Keys <= log.received.Keys
  {
    hide Answered, Running, Ended, Waiting;
    forall s | s in active
      ensures s in log.received
    {
      assert Placed(s, active[s], log, ending);
      PlacedKnown(s, active[s], log, ending);
    }
  }

  /** Sequences other than s, with their events, are as they were. */
  lemma {:induction false} SampledStep(m: Model, active: Active, log: Log, ending: set<SeqId>, active': Active,
                                       log': Log, ending': set<SeqId>, s: SeqId)
    requires SampledRight(m, active, log, ending)
    requires forall t :: t in active' && t != s ==>
      t in active && active'[t] == active[t] && (t in ending' <==> t in ending)
    requires forall t :: t in active' && t != s && t in log.events ==>
      t in log'.events && log'.events[t] == log.events[t]
    requires s in active' ==> s !in ending' && TrueTo(m, active'[s])
    ensures SampledRight(m, active', log', ending')
  {
    hide EndedRight, TrueTo;
  }

  lemma {:induction false} ReceivedRight(m: Model, pending: seq<Request>, active: Active, log: Log, r: Request)
    requires StateOk(pending, active, log, {}) && r.seqId !in log.received
    requires SampledRight(m, active, log, {}) && RightAnswers(m, pending, active, log)
    ensures SampledRight(m, active, Opened(log, r), {}) && RightAnswers(m, pending + [r], active, Opened(log, r))
  {
    hide StateOk, SampledRight, RightAnswers, IsPending;
    StateKeys(pending, active, log, {});
    forall t
      ensures IsPending(pending + [r], t) <==> IsPending(pending, t) || r.seqId == t
    {
      StillPending(pending, r, t);
    }
    RightStep(m, pending, active, log, pending + [r], active, Opened(log, r), r.seqId);
    SampledStep(m, active, log, {}, active, Opened(log, r), {}, r.seqId);
  }

  lemma {:induction false} ReceivedFed(pending: seq<Request>, active: Active, log: Log, r: Request)
    requires StateOk(pending, active, log, {}) && r.seqId !in log.received
    ensures FedOf(active, Opened(log, r)) == FedOf(active, log)
  {
    hide StateOk;
    StateKeys(pending, active, log, {});
  }

  lemma {:induction false} FirstWaits(pending: seq<Request>, active: Active, log: Log)
    requires StateOk(pending, active, log, {}) && pending != []
    ensures Waiting(pending[0], active, log)
    ensures forall t :: t != pending[0].seqId ==> (IsPending(pending[1..], t) <==> IsPending(pending, t))
  {
    hide Answered, Running, Ended, Waiting, IsPending;
    forall t
      ensures IsPending(pending, t) <==> IsPending(pending[1..], t) || pending[0].seqId == t
    {
      FirstPending(pending, t);
    }
  }

  lemma {:induction false} RefusedRight(m: Model, pending: seq<Request>, active: Active, log: Log)
    requires StateOk(pending, active, log, {}) && pending != [] && pending[0].seqId in log.events
    requires SampledRight(m, active, log, {}) && RightAnswers(m, pending, active, log)
    ensures var log' := Post(log, pending[0].seqId, [ErrorEvent]);
            SampledRight(m, active, log', {}) && RightAnswers(m, pending[1..], active, log')
  {
    hide StateOk, SampledRight, RightAnswers, IsPending, AnswerRight, ShownRight;
    StateKeys(pending, active, log, {});
    FirstWaits(pending, active, log);
    var s := pending[0].seqId;
    var log' := Post(log, s, [ErrorEvent]);
    NothingShown(m, log.received[s]);
    ErrorRight(m, log.received[s], log.events[s]);
    RightStep(m, pending, active, log, pending[1..], active, log', s);
    SampledStep(m, active, log, {}, active, log', {}, s);
  }

  lemma {:induction false} AbortedRight(m: Model, pending: seq<Request>, active: Active, log: Log, s: SeqId)
    requires StateOk(pending, active, log, {}) && s in active && s in log.events
    requires SampledRight(m, active, log, {}) && RightAnswers(m, pending, active, log)
    ensures var log' := Post(log, s, [ErrorEvent]);
            SampledRight(m, active - {s}, log', {}) && RightAnswers(m, pending, active - {s}, log')
  {
    hide StateOk, SampledRight, RightAnswers, IsPending, AnswerRight, ShownRight, Running, TrueTo;
    StateKeys(pending, active, log, {});
    var log' := Post(log, s, [ErrorEvent]);
    PlacedIn(pending, active, log, s);
    SampledTrue(m, active, log, s);
    RunningShown(m, s, active[s], log);
    ErrorRight(m, log.received[s], log.events[s]);
    RightStep(m, pending, active, log, pending, active - {s}, log', s);
    SampledStep(m, active, log, {}, active - {s}, log', {}, s);
  }

  lemma {:induction false} AdmittedRight(m: Model, pending: seq<Request>, active: Active, log: Log)
    requires StateOk(pending, active, log, {}) && pending != []
    requires SampledRight(m, active, log, {}) && RightAnswers(m, pending, active, log)
    ensures var r := pending[0];
            var active' := active[r.seqId := Sequence(r, |r.prompt|, [], r.prompt, false)];
            SampledRight(m, active', log, {}) && RightAnswers(m, pending[1..], active', log)
  {
    hide StateOk, SampledRight, RightAnswers, IsPending, AnswerRight, TrueTo;
    StateKeys(pending, active, log, {});
    FirstWaits(pending, active, log);
    var r := pending[0];
    var active' := active[r.seqId := Sequence(r, |r.prompt|, [], r.prompt, false)];
    StartsTrue(m, r);
    RightStep(m, pending, active, log, pending[1..], active', log, r.seqId);
    SampledStep(m, active, log, {}, active', log, {}, r.seqId);
  }

  lemma {:induction false} AdmittedFed(pending: seq<Request>, active: Active, log: Log)
    requires StateOk(pending, active, log, {}) && pending != []
    ensures var r := pending[0];
            FedOf(active[r.seqId := Sequence(r, |r.prompt|, [], r.prompt, false)], log) == FedOf(active,
              log)[r.seqId := []]
  {
    hide StateOk;
    FirstWaits(pending, active, log);
  }

  lemma {:induction false} MovedRight(m: Model, pending: seq<Request>, metas: seq<SequenceMeta>,
                                      chunks: seq<seq<nat>>, active: Active, log: Log, active': Active, log': Log)
    requires RightAnswers(m, pending, active, log) && Moved(metas, |metas|, chunks, active, log, active', log')
    requires forall i :: 0 <= i < |metas| ==> metas[i].seqId in active
    ensures RightAnswers(m, pending, active', log')
  {
    hide AnswerRight, IsPending;
    forall s | s in log'.received && s !in active' && !IsPending(pending, s)
      ensures AnswerRight(m, log'.received[s], log'.events[s])
    {
      assert !InFirst(metas, |metas|, s);
      assert AgreesOn(log, log', s);
    }
  }

  lemma {:induction false} EndedRightly(m: Model, pending: seq<Request>, active: Active, log: Log, ending: set<SeqId>,
                                        s: SeqId)
    requires StateOk(pending, active, log, ending) && s in active && s in ending && s in log.events
    requires SampledRight(m, active, log, ending) && RightAnswers(m, pending, active, log)
    ensures var log' := Post(log, s, [FinalEvent(active[s])]);
            SampledRight(m, active - {s}, log', ending - {s}) && RightAnswers(m, pending, active - {s}, log')
  {
    hide StateOk, RightAnswers, IsPending, AnswerRight, EndedRight, TrueTo;
    StateKeys(pending, active, log, ending);
    var log' := Post(log, s, [FinalEvent(active[s])]);
    assert log.received[s] == active[s].req by {
      assert StateOk(pending, active, log, ending);
      EndingKnown(pending, active, log, ending, s);
    }
    FinishedRight(m, active[s], log.events[s]);
    RightStep(m, pending, active, log, pending, active - {s}, log', s);
    SampledStep(m, active, log, ending, active - {s}, log', ending - {s}, s);
  }

  lemma {:induction false} EndingKnown(pending: seq<Request>, active: Active, log: Log, ending: set<SeqId>, s: SeqId)
    requires StateOk(pending, active, log, ending) && s in active
    ensures s in log.received && log.received[s] == active[s].req
  {
    hide Answered, Running, Ended, Waiting;
    assert Placed(s, active[s], log, ending);
    PlacedKnown(s, active[s], log, ending);
  }

  lemma {:induction false} SomeLater(pending: seq<Request>, active: Active, log: Log, ending: set<SeqId>)
    requires StateOk(pending, active, log, ending)
    ensures Later(log, log)
  {
    LaterSame(log);
  }
}
