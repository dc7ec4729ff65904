/**
 The priority-based election: one agent's handlers, and a round among any number of agents
 over a network that may lose, duplicate and reorder messages.
 */
module Election {
  import opened Core

  type AgentId = string

  datatype ElectionState = Follower | Candidate | Leader

  datatype Agent = Agent(id: AgentId, priority: nat, term: nat, state: ElectionState)

  datatype Action =
    | NoAction
    | Challenge(candidate: AgentId)
    | DeclareVictory
    | StandDown(leader: AgentId)
    | AcceptLeader(leader: AgentId)

  datatype Handled = Handled(agent: Agent, action: Action)

  // ----- rank -----

  /** Lexicographic order of ids. */
  predicate LexLess(a: AgentId, b: AgentId) {
    if a == [] then b != []
    else b != [] && (a[0] < b[0] || (a[0] == b[0] && LexLess(a[1..], b[1..])))
  }

  lemma {:induction false} LexTotal(a: AgentId, b: AgentId)
    ensures !(LexLess(a, b) && LexLess(b, a))
    ensures a == b <==> !LexLess(a, b) && !LexLess(b, a)
  {
    if a != [] && b != [] {
      LexTotal(a[1..], b[1..]);
      assert a == [a[0]] + a[1..] && b == [b[0]] + b[1..];
    }
  }

  lemma {:induction false} LexTransitive(a: AgentId, b: AgentId, c: AgentId)
    requires LexLess(a, b) && LexLess(b, c)
    ensures LexLess(a, c)
  {
    if a != [] && a[0] == b[0] && b[0] == c[0] { LexTransitive(a[1..], b[1..], c[1..]); }
  }

  /** A lower number wins; equal numbers are decided by id. */
  predicate Outranks(p: nat, a: AgentId, q: nat, b: AgentId) {
    p < q || (p == q && LexLess(a, b))
  }

  /** Of two agents with different ids exactly one outranks the other, and ranks are transitive. */
  lemma {:induction false} RankIsStrictOrder(p: nat, a: AgentId, q: nat, b: AgentId, r: nat, c: AgentId)
    ensures !Outranks(p, a, p, a)
    ensures a != b ==> (Outranks(p, a, q, b) <==> !Outranks(q, b, p, a))
    ensures Outranks(p, a, q, b) && Outranks(q, b, r, c) ==> Outranks(p, a, r, c)
  {
    LexTotal(a, a);
    LexTotal(a, b);
    if LexLess(a, b) && LexLess(b, c) { LexTransitive(a, b, c); }
  }

  // ----- terms -----

  function Newer(current: nat, received: nat): nat {
    if received > current then received else current
  }

  /** The monotonic term counter. */
  class TermTracker {
    var current: nat

    constructor (initial: nat)
      ensures current == initial
    {
      current := initial;
    }

    method Increment() returns (t: nat)
      modifies this
      ensures t == current == old(current) + 1
    {
      current := current + 1;
      t := current;
    }

    method IsAcceptable(received: nat) returns (ok: bool)
      ensures ok <==> received >= current
    {
      ok := received >= current;
    }

    method UpdateIfNewer(received: nat) returns (updated: bool)
      modifies this
      ensures current == Newer(old(current), received) && (updated <==> current > old(current))
    {
      updated := received > current;
      if updated { current := received; }
    }
  }

  // ----- one agent -----

  function OnStart(a: Agent, candidate: AgentId, priority: nat, term: nat): Handled {
    if term < a.term then Handled(a, NoAction)
    else
      var b := a.(term := Newer(a.term, term));
      if Outranks(a.priority, a.id, priority, candidate) then Handled(b, Challenge(candidate))
      else Handled(if a.state == Candidate then b.(state := Follower) else b, NoAction)
  }

  function OnChallenge(a: Agent, challenger: AgentId, term: nat): Handled {
    if term < a.term then Handled(a, NoAction)
    else
      var b := a.(term := Newer(a.term, term));
      if a.state == Candidate then Handled(b.(state := Follower), StandDown(challenger)) else Handled(b, NoAction)
  }

  function OnVictory(a: Agent, leader: AgentId, term: nat): Handled {
    if term < a.term then Handled(a, NoAction)
    else Handled(a.(term := Newer(a.term, term), state := Follower), AcceptLeader(leader))
  }

  function OnTimeout(a: Agent): Handled {
    if a.state == Candidate then Handled(a.(state := Leader), DeclareVictory) else Handled(a, NoAction)
  }

  function Started(a: Agent): Agent {
    a.(term := a.term + 1, state := Candidate)
  }

  /** The agent as the program holds it: a term tracker and a state. */
  class ElectionAgent {
    const id: AgentId
    const priority: nat
    const term: TermTracker
    var state: ElectionState

    ghost function View(): Agent
      reads this, term
    {
      Agent(id, priority, term.current, state)
    }

    constructor (id: AgentId, priority: nat, initialTerm: nat)
      ensures View() == Agent(id, priority, initialTerm, Follower) && fresh(term)
    {
      this.id := id;
      this.priority := priority;
      term := new TermTracker(initialTerm);
      state := Follower;
    }

    method StartElection() returns (t: nat)
      modifies this, term
      ensures View() == Started(old(View())) && t == View().term
      ensures t == old(View()).term + 1 && View().state == Candidate
    {
      t := term.Increment();
      state := Candidate;
    }

    method OnElectionStart(candidate: AgentId, candidatePriority: nat, candidateTerm: nat) returns (action: Action)
      modifies this, term
      ensures Handled(View(), action) == OnStart(old(View()), candidate, candidatePriority, candidateTerm)
      ensures candidateTerm < old(View()).term ==> View() == old(View()) && action == NoAction
      ensures candidateTerm >= old(View()).term ==>
        View().term == candidateTerm &&
        if Outranks(priority, id, candidatePriority, candidate)
        then action == Challenge(candidate) && View().state == old(View()).state
        else
          action == NoAction &&
          View().state == if old(View()).state == Candidate then Follower else old(View()).state
    {
      var ok := term.IsAcceptable(candidateTerm);
      if !ok { return NoAction; }
      var _ := term.UpdateIfNewer(candidateTerm);
      if priority < candidatePriority || (priority == candidatePriority && LexLess(id, candidate)) {
        return Challenge(candidate);
      }
      if state == Candidate { state := Follower; }
      action := NoAction;
    }

    method OnElectionChallenge(challenger: AgentId, challengerTerm: nat) returns (action: Action)
      modifies this, term
      ensures Handled(View(), action) == OnChallenge(old(View()), challenger, challengerTerm)
      ensures challengerTerm < old(View()).term ==> View() == old(View()) && action == NoAction
      ensures challengerTerm >= old(View()).term ==>
        View().term == challengerTerm &&
        if old(View()).state == Candidate then View().state == Follower && action == StandDown(challenger)
        else View().state == old(View()).state && action == NoAction
    {
      var ok := term.IsAcceptable(challengerTerm);
      if !ok { return NoAction; }
      var _ := term.UpdateIfNewer(challengerTerm);
      if state != Candidate { return NoAction; }
      state := Follower;
      action := StandDown(challenger);
    }

    method OnVictoryMessage(leader: AgentId, leaderTerm: nat) returns (action: Action)
      modifies this, term
      ensures Handled(View(), action) == OnVictory(old(View()), leader, leaderTerm)
      ensures leaderTerm < old(View()).term ==> View() == old(View()) && action == NoAction
      ensures leaderTerm >= old(View()).term ==>
        View().term == leaderTerm && View().state == Follower && action == AcceptLeader(leader)
    {
      var ok := term.IsAcceptable(leaderTerm);
      if !ok { return NoAction; }
      var _ := term.UpdateIfNewer(leaderTerm);
      state := Follower;
      action := AcceptLeader(leader);
    }

    method OnElectionTimeout() returns (action: Action)
      modifies this
      ensures Handled(View(), action) == OnTimeout(old(View()))
      ensures View().term == old(View()).term &&
        if old(View()).state == Candidate then View().state == Leader && action == DeclareVictory
        else View().state == old(View()).state && action == NoAction
    {
      if state != Candidate { return NoAction; }
      state := Leader;
      action := DeclareVictory;
    }
  }

  // ----- many agents -----

  /** A message that has been sent; it can be delivered any number of times or never. */
  datatype Message =
    | StartMsg(from: nat, term: nat)
    | ChallengeMsg(from: nat, to: nat, term: nat)
    | VictoryMsg(from: nat, term: nat)

  /** `log`: which message has been delivered to whom. */
  datatype World = World(agents: seq<Agent>, sent: set<Message>, log: set<(nat, Message)>)

  datatype Step =
    | Start(i: nat)
    | Deliver(msg: Message, to: nat)
    | Timeout(i: nat)

  ghost predicate DistinctAgents(agents: seq<Agent>) {
    forall i, j :: 0 <= i < j < |agents| ==> agents[i].id != agents[j].id
  }

  /** Messages go to other agents, and a challenge to the one challenged. */
  predicate Enabled(w: World, s: Step) {
    match s
    case Start(i) => i < |w.agents|
    case Timeout(i) => i < |w.agents|
    case Deliver(msg, to) =>
      to < |w.agents| && msg in w.sent && msg.from < |w.agents| && msg.from != to &&
      (msg.ChallengeMsg? ==> msg.to == to)
  }

  /** What the agent does with a delivered message. */
  function Receive(w: World, msg: Message, to: nat): Handled
    requires to < |w.agents| && msg.from < |w.agents|
  {
    var a, b := w.agents[to], w.agents[msg.from];
    match msg
    case StartMsg(_, term) => OnStart(a, b.id, b.priority, term)
    case ChallengeMsg(_, _, term) => OnChallenge(a, b.id, term)
    case VictoryMsg(_, term) => OnVictory(a, b.id, term)
  }

  function Next(w: World, s: Step): World
    requires Enabled(w, s)
  {
    match s
    case Start(i) =>
      var a := Started(w.agents[i]);
      World(w.agents[i := a], w.sent + {StartMsg(i, a.term)}, w.log)
    case Timeout(i) =>
      var h := OnTimeout(w.agents[i]);
      World(w.agents[i := h.agent], if h.action.DeclareVictory? then w.sent + {VictoryMsg(i, h.agent.term)}
            else w.sent, w.log)
    case Deliver(msg, to) =>
      var h := Receive(w, msg, to);
      World(w.agents[to := h.agent],
            if h.action.Challenge? then w.sent + {ChallengeMsg(to, msg.from, h.agent.term)} else w.sent,
            w.log + {(to, msg)})
  }

  /** No step of any kind lowers a term. */
  lemma {:induction false} TermsGrow(w: World, s: Step, i: nat)
    requires Enabled(w, s) && i < |w.agents|
    ensures |Next(w, s).agents| == |w.agents| && Next(w, s).agents[i].term >= w.agents[i].term
    ensures Next(w, s).agents[i].id == w.agents[i].id && Next(w, s).agents[i].priority == w.agents[i].priority
  {
  }

  /** On any world, a victory message that is not older makes the receiver follow the sender in its term. */
  lemma {:induction false} VictoryObeyed(w: World, msg: Message, to: nat)
    requires msg.VictoryMsg? && Enabled(w, Deliver(msg, to))
    ensures var a, b := w.agents[to], Next(w, Deliver(msg, to)).agents[to];
            Next(w, Deliver(msg, to)).sent == w.sent &&
            if msg.term < a.term then b == a && Receive(w, msg, to).action == NoAction
            else b.state == Follower && b.term == msg.term &&
                 Receive(w, msg, to).action == AcceptLeader(w.agents[msg.from].id)
  {
  }

  /** On any world, a challenge that is not older makes a candidate stand down, and nobody else. */
  lemma {:induction false} ChallengeObeyed(w: World, msg: Message, to: nat)
    requires msg.ChallengeMsg? && Enabled(w, Deliver(msg, to))
    ensures var a, b := w.agents[to], Next(w, Deliver(msg, to)).agents[to];
            Next(w, Deliver(msg, to)).sent == w.sent &&
            if msg.term < a.term then b == a
            else b.term == msg.term && (a.state == Candidate ==> b.state == Follower) &&
                 (a.state != Candidate ==> b.state == a.state)
  {
  }

  /**
   On any world, a start that is not older is challenged, in the candidate's term, by a receiver of
   better rank, which stays what it is; any other receiver is no candidate any more.
   */
  lemma {:induction false} StartAnswered(w: World, msg: Message, to: nat)
    requires msg.StartMsg? && Enabled(w, Deliver(msg, to))
    ensures var a, from, w' := w.agents[to], w.agents[msg.from], Next(w, Deliver(msg, to));
            var b := w'.agents[to];
            if msg.term < a.term then b == a && w'.sent == w.sent
            else if Outranks(a.priority, a.id, from.priority, from.id)
            then b.term == msg.term && b.state == a.state && w'.sent == w.sent + {ChallengeMsg(to, msg.from, msg.term)}
            else b.term == msg.term && b.state == (if a.state == Candidate then Follower else a.state) &&
                 w'.sent == w.sent
  {
  }

  /** On any world, a candidate that times out leads and says so in its term; nobody else does. */
  lemma {:induction false} TimeoutWins(w: World, i: nat)
    requires i < |w.agents|
    ensures var a, w' := w.agents[i], Next(w, Timeout(i));
            if a.state == Candidate
            then w'.agents[i] == a.(state := Leader) && w'.sent == w.sent + {VictoryMsg(i, a.term)}
            else w'.agents[i] == a && w'.sent == w.sent
  {
  }

  // ----- runs -----

  ghost predicate EnabledRun(w: World, steps: seq<Step>)
    decreases |steps|
  {
    steps == [] || (Enabled(w, steps[0]) && EnabledRun(Next(w, steps[0]), steps[1..]))
  }

  ghost function Exec(w: World, steps: seq<Step>): World
    requires EnabledRun(w, steps)
    decreases |steps|
  {
    if steps == [] then w else Exec(Next(w, steps[0]), steps[1..])
  }

  /** Over any run, whatever is started, lost, repeated or delayed, no agent's term goes down. */
  lemma {:induction false} TermsNeverFall(w: World, steps: seq<Step>, i: nat)
    requires EnabledRun(w, steps) && i < |w.agents|
    ensures i < |Exec(w, steps).agents| && Exec(w, steps).agents[i].term >= w.agents[i].term
    decreases |steps|
  {
    if steps != [] {
      TermsGrow(w, steps[0], i);
      TermsNeverFall(Next(w, steps[0]), steps[1..], i);
    }
  }

  // ----- a round -----

  ghost predicate Touched(w: World, i: nat) {
    exists m :: (i, m) in w.log
  }

  /** The start of `best`, sent from term t, has reached agent i. */
  ghost predicate Heard(w: World, best: nat, t: nat, i: nat) {
    (i, StartMsg(best, t + 1)) in w.log
  }

  /** A victory of `best` has reached agent i. */
  ghost predicate ToldOf(w: World, best: nat, i: nat) {
    exists u :: (i, VictoryMsg(best, u)) in w.log
  }

  /**
   The steps of a round: a candidate starts before it has received anything, and an agent
   other than the best times out only after the best one's start has reached it.
   */
  ghost predicate InRound(w: World, s: Step, candidates: set<nat>, best: nat, t: nat) {
    Enabled(w, s) &&
    match s
    case Start(i) => i in candidates && !Touched(w, i) && w.agents[i].state == Follower
    case Timeout(i) => i == best || Heard(w, best, t, i)
    case Deliver(_, _) => true
  }

  ghost predicate RoundRun(w: World, steps: seq<Step>, candidates: set<nat>, best: nat, t: nat)
    ensures RoundRun(w, steps, candidates, best, t) ==> EnabledRun(w, steps)
    decreases |steps|
  {
    steps == [] ||
    (InRound(w, steps[0], candidates, best, t) && RoundRun(Next(w, steps[0]), steps[1..], candidates, best, t))
  }

  /** Everybody follows, at whatever term, and nothing has been sent. */
  ghost predicate AtRest(w: World) {
    w.sent == {} && w.log == {} && forall i :: 0 <= i < |w.agents| ==> w.agents[i].state == Follower
  }

  ghost predicate IsBest(agents: seq<Agent>, best: nat) {
    best < |agents| &&
    forall i :: 0 <= i < |agents| && i != best ==>
      Outranks(agents[best].priority, agents[best].id, agents[i].priority, agents[i].id) &&
      !Outranks(agents[i].priority, agents[i].id, agents[best].priority, agents[best].id)
  }

  /** No candidate starts from a later term than the best agent. */
  ghost predicate NoneAhead(agents: seq<Agent>, candidates: set<nat>, best: nat) {
    best < |agents| && forall i :: i in candidates && i < |agents| ==> agents[i].term <= agents[best].term
  }

  /** No other agent leads, and the best one has not stood down if it started. */
  ghost predicate OnlyBestLeads(e: World, best: nat, t: nat) {
    best < |e.agents| && (forall i :: 0 <= i < |e.agents| && i != best ==> e.agents[i].state != Leader) &&
    (StartMsg(best, t + 1) in e.sent ==> e.agents[best].state != Follower)
  }

  // ----- safe when no candidate is ahead -----

  /** Agent i during the round; t is the term from which the best one starts. */
  ghost predicate AgentInv(w: World, candidates: set<nat>, best: nat, t: nat, i: nat)
    requires i < |w.agents|
  {
    var a := w.agents[i];
    (a.state != Follower ==> a.term <= t + 1) &&
    (i in candidates && !Touched(w, i) && a.state == Follower ==> a.term <= t) &&
    (i != best ==>
      a.state != Leader && (Heard(w, best, t, i) || ToldOf(w, best, i) ==> a.state == Follower)) &&
    (i == best ==>
      (a.state != Follower ==> a.term == t + 1) &&
      (!Touched(w, i) && a.state == Follower ==> a.term == t) &&
      (StartMsg(best, t + 1) in w.sent <==> a.state != Follower))
  }

  ghost predicate MessageInv(best: nat, t: nat, m: Message) {
    m.term <= t + 1 && (m.VictoryMsg? ==> m.from == best && m.term == t + 1) && (m.ChallengeMsg? ==> m.to != best) &&
    (m.StartMsg? && m.from == best ==> m.term == t + 1)
  }

  ghost predicate RoundInv(w: World, candidates: set<nat>, best: nat, t: nat) {
    IsBest(w.agents, best) &&
    (forall m :: m in w.sent ==> MessageInv(best, t, m)) &&
    (forall i :: 0 <= i < |w.agents| ==> AgentInv(w, candidates, best, t, i)) &&
    (forall i, m :: (i, m) in w.log ==> m in w.sent)
  }

  lemma {:induction false} BestStays(w: World, s: Step, best: nat)
    requires Enabled(w, s) && IsBest(w.agents, best)
    ensures IsBest(Next(w, s).agents, best)
  {
    var w' := Next(w, s);
    forall i | 0 <= i < |w'.agents|
      ensures w'.agents[i].id == w.agents[i].id && w'.agents[i].priority == w.agents[i].priority
    {
      TermsGrow(w, s, i);
    }
    TermsGrow(w, s, best);
  }

  lemma {:induction false} StartKeeps(w: World, i: nat, candidates: set<nat>, best: nat, t: nat)
    requires RoundInv(w, candidates, best, t) && InRound(w, Start(i), candidates, best, t)
    ensures RoundInv(Next(w, Start(i)), candidates, best, t)
  {
    BestStays(w, Start(i), best);
    var w' := Next(w, Start(i));
    assert AgentInv(w, candidates, best, t, i);
    forall j | 0 <= j < |w'.agents|
      ensures AgentInv(w', candidates, best, t, j)
    {
      assert AgentInv(w, candidates, best, t, j);
    }
  }

  lemma {:induction false} TimeoutKeeps(w: World, i: nat, candidates: set<nat>, best: nat, t: nat)
    requires RoundInv(w, candidates, best, t) && InRound(w, Timeout(i), candidates, best, t)
    ensures RoundInv(Next(w, Timeout(i)), candidates, best, t)
  {
    BestStays(w, Timeout(i), best);
    var w' := Next(w, Timeout(i));
    assert AgentInv(w, candidates, best, t, i);
    forall j | 0 <= j < |w'.agents|
      ensures AgentInv(w', candidates, best, t, j)
    {
      assert AgentInv(w, candidates, best, t, j);
    }
  }

  lemma {:induction false} DeliverKeeps(w: World, msg: Message, to: nat, candidates: set<nat>, best: nat, t: nat)
    requires RoundInv(w, candidates, best, t) && Enabled(w, Deliver(msg, to))
    ensures RoundInv(Next(w, Deliver(msg, to)), candidates, best, t)
  {
    var s := Deliver(msg, to);
    BestStays(w, s, best);
    var w' := Next(w, s);
    assert MessageInv(best, t, msg) && AgentInv(w, candidates, best, t, to);
    assert (to, msg) in w'.log && Touched(w', to);
    forall j | 0 <= j < |w'.agents|
      ensures AgentInv(w', candidates, best, t, j)
    {
      assert AgentInv(w, candidates, best, t, j);
      if j != to { OthersUntouched(w, msg, to, j); }
    }
  }

  lemma {:induction false} OthersUntouched(w: World, msg: Message, to: nat, j: nat)
    requires Enabled(w, Deliver(msg, to)) && j != to
    ensures Touched(Next(w, Deliver(msg, to)), j) <==> Touched(w, j)
  {
    var w' := Next(w, Deliver(msg, to));
    if Touched(w, j) {
      var m :| (j, m) in w.log;
      assert (j, m) in w'.log;
    }
    if Touched(w', j) {
      var m :| (j, m) in w'.log;
      assert (j, m) in w.log;
    }
  }

  lemma {:induction false} RoundIsSafe(w: World, steps: seq<Step>, candidates: set<nat>, best: nat, t: nat)
    requires RoundInv(w, candidates, best, t) && RoundRun(w, steps, candidates, best, t)
    ensures RoundInv(Exec(w, steps), candidates, best, t)
    decreases |steps|
  {
    if steps != [] {
      var s := steps[0];
      match s {
        case Start(i) => StartKeeps(w, i, candidates, best, t);
        case Timeout(i) => TimeoutKeeps(w, i, candidates, best, t);
        case Deliver(msg, to) => DeliverKeeps(w, msg, to, candidates, best, t);
      }
      RoundIsSafe(Next(w, s), steps[1..], candidates, best, t);
    }
  }

  /** Among agents with different ids one outranks all others. */
  lemma {:induction false} BestExists(agents: seq<Agent>) returns (best: nat)
    requires agents != [] && DistinctAgents(agents)
    ensures IsBest(agents, best)
    decreases |agents|
  {
    var n := |agents| - 1;
    if n == 0 {
      best := 0;
    } else {
      var rest := agents[..n];
      best := BestExists(rest);
      var x, y := agents[best], agents[n];
      RankIsStrictOrder(x.priority, x.id, y.priority, y.id, 0, "");
      if Outranks(y.priority, y.id, x.priority, x.id) {
        forall i | 0 <= i < n
          ensures Outranks(y.priority, y.id, agents[i].priority, agents[i].id)
          ensures !Outranks(agents[i].priority, agents[i].id, y.priority, y.id)
        {
          var z := agents[i];
          assert z == rest[i];
          RankIsStrictOrder(y.priority, y.id, x.priority, x.id, z.priority, z.id);
          RankIsStrictOrder(y.priority, y.id, z.priority, z.id, 0, "");
        }
        best := n;
      } else {
        assert forall i :: 0 <= i < n ==> agents[i] == rest[i];
      }
    }
  }

  /**
   Round safety, for any number of agents and any interleaving, loss or repetition of messages.
   If no candidate starts from a later term than the best agent and the round's rules are kept,
   no agent but the best becomes leader, and the best one never stands down once it has started.
   Agents that are not candidates may be at any term.
   */
  lemma {:induction false} SafeElection(w: World, steps: seq<Step>, candidates: set<nat>, best: nat)
    requires AtRest(w) && IsBest(w.agents, best) && NoneAhead(w.agents, candidates, best)
    requires RoundRun(w, steps, candidates, best, w.agents[best].term)
    ensures OnlyBestLeads(Exec(w, steps), best, w.agents[best].term)
  {
    var t := w.agents[best].term;
    RestInv(w, candidates, best);
    RoundIsSafe(w, steps, candidates, best, t);
    InvMeans(Exec(w, steps), candidates, best, t);
  }

  lemma {:induction false} InvMeans(e: World, candidates: set<nat>, best: nat, t: nat)
    requires RoundInv(e, candidates, best, t)
    ensures OnlyBestLeads(e, best, t)
  {
    forall i | 0 <= i < |e.agents| && i != best
      ensures e.agents[i].state != Leader
    {
      assert AgentInv(e, candidates, best, t, i);
    }
    assert AgentInv(e, candidates, best, t, best);
  }

  /** In such a round, whoever has received the best agent's victory follows, to the end. */
  lemma {:induction false} VictoryFollowed(w: World, steps: seq<Step>, candidates: set<nat>, best: nat, i: nat, u: nat)
    requires AtRest(w) && IsBest(w.agents, best) && NoneAhead(w.agents, candidates, best)
    requires RoundRun(w, steps, candidates, best, w.agents[best].term)
    requires i < |Exec(w, steps).agents| && i != best && (i, VictoryMsg(best, u)) in Exec(w, steps).log
    ensures Exec(w, steps).agents[i].state == Follower && u == w.agents[best].term + 1
  {
    var t, e := w.agents[best].term, Exec(w, steps);
    RestInv(w, candidates, best);
    RoundIsSafe(w, steps, candidates, best, t);
    assert AgentInv(e, candidates, best, t, i) && ToldOf(e, best, i);
    assert VictoryMsg(best, u) in e.sent && MessageInv(best, t, VictoryMsg(best, u));
  }

  lemma {:induction false} RestInv(w: World, candidates: set<nat>, best: nat)
    requires AtRest(w) && IsBest(w.agents, best) && NoneAhead(w.agents, candidates, best)
    ensures RoundInv(w, candidates, best, w.agents[best].term)
  {
    forall i | 0 <= i < |w.agents|
      ensures AgentInv(w, candidates, best, w.agents[best].term, i)
    {
    }
  }

  // ----- safe when the best agent does not stand -----

  /** Nobody leads, and nothing comes from the best agent's start. */
  ghost predicate Idle(w: World, best: nat) {
    best < |w.agents| && w.agents[best].state == Follower &&
    (forall i :: 0 <= i < |w.agents| ==> w.agents[i].state != Leader) &&
    (forall m :: m in w.sent ==> !(m.StartMsg? && m.from == best)) && forall i, m :: (i, m) in w.log ==> m in w.sent
  }

  lemma {:induction false} IdleStays(w: World, steps: seq<Step>, candidates: set<nat>, best: nat, t: nat)
    requires Idle(w, best) && best !in candidates && RoundRun(w, steps, candidates, best, t)
    ensures Idle(Exec(w, steps), best)
    decreases |steps|
  {
    if steps != [] { IdleStays(Next(w, steps[0]), steps[1..], candidates, best, t); }
  }

  // ----- not safe when a candidate is ahead -----

  /** The best agent and one that is ahead start; the late start is ignored, and both time out. */
  function Race(best: nat, i: nat, t: nat, u: nat): seq<Step> {
    [Start(best), Start(i), Deliver(StartMsg(best, t + 1), i), Timeout(i), Deliver(StartMsg(i, u + 1), best),
     Timeout(best)]
  }

  lemma {:induction false} RunOne(w: World, s: Step, steps: seq<Step>, candidates: set<nat>, best: nat, t: nat)
    requires steps != [] && steps[0] == s && InRound(w, s, candidates, best, t)
    requires RoundRun(Next(w, s), steps[1..], candidates, best, t)
    ensures RoundRun(w, steps, candidates, best, t) && Exec(w, steps) == Exec(Next(w, s), steps[1..])
  {
  }

  /** A candidate that is ahead ignores the best one's start, and both end as leaders of one term. */
  lemma {:induction false} RaceEndsTwice(w: World, candidates: set<nat>, best: nat, i: nat)
    requires AtRest(w) && IsBest(w.agents, best) && best in candidates && i in candidates && i < |w.agents|
    requires w.agents[i].term > w.agents[best].term
    ensures var t, u := w.agents[best].term, w.agents[i].term;
            var steps := Race(best, i, t, u);
            RoundRun(w, steps, candidates, best, t) &&
            var e := Exec(w, steps);
            |e.agents| == |w.agents| && i != best && e.agents[i] == w.agents[i].(term := u + 1, state := Leader) &&
            e.agents[best] == w.agents[best].(term := u + 1, state := Leader)
  {
    var t, u := w.agents[best].term, w.agents[i].term;
    var steps := Race(best, i, t, u);
    var w1 := Next(w, steps[0]);
    var w2 := Next(w1, steps[1]);
    var w3 := Next(w2, steps[2]);
    assert Heard(w3, best, t, i) && w3.agents == w2.agents;
    var w4 := Next(w3, steps[3]);
    var w5 := Next(w4, steps[4]);
    assert w5.agents[best] == w.agents[best].(term := u + 1, state := Candidate);
    var w6 := Next(w5, steps[5]);
    assert steps[5..] == [Timeout(best)] && steps[6..] == [];
    RunOne(w5, steps[5], steps[5..], candidates, best, t);
    assert steps[4..][1..] == steps[5..];
    RunOne(w4, steps[4], steps[4..], candidates, best, t);
    assert steps[3..][1..] == steps[4..];
    RunOne(w3, steps[3], steps[3..], candidates, best, t);
    assert steps[2..][1..] == steps[3..];
    RunOne(w2, steps[2], steps[2..], candidates, best, t);
    assert steps[1..][1..] == steps[2..];
    RunOne(w1, steps[1], steps[1..], candidates, best, t);
    RunOne(w, steps[0], steps, candidates, best, t);
  }

  /**
   Exactly when a round is safe whatever happens in it: the best agent does not stand, or no
   candidate starts from a later term.
   */
  lemma {:induction false} SafeIff(w: World, candidates: set<nat>, best: nat)
    requires AtRest(w) && IsBest(w.agents, best)
    ensures (forall steps :: RoundRun(w, steps, candidates, best, w.agents[best].term) ==>
              OnlyBestLeads(Exec(w, steps), best, w.agents[best].term)) <==>
            best !in candidates || NoneAhead(w.agents, candidates, best)
  {
    var t := w.agents[best].term;
    if best in candidates && !NoneAhead(w.agents, candidates, best) {
      var i :| i in candidates && i < |w.agents| && w.agents[i].term > t;
      RaceEndsTwice(w, candidates, best, i);
      assert !OnlyBestLeads(Exec(w, Race(best, i, t, w.agents[i].term)), best, t);
    } else {
      forall steps | RoundRun(w, steps, candidates, best, t)
        ensures OnlyBestLeads(Exec(w, steps), best, t)
      {
        if best in candidates {
          SafeElection(w, steps, candidates, best);
        } else {
          IdleStays(w, steps, candidates, best, t);
        }
      }
    }
  }

  const AHEAD := World([Agent("a", 0, 0, Follower), Agent("b", 1, 5, Follower)], {}, {})

  /** Agent b is five terms ahead of the better-ranked a, and both end up leader of term 6. */
  lemma {:induction false} TwoLeaders()
    ensures IsBest(AHEAD.agents, 0) && RoundRun(AHEAD, Race(0, 1, 0, 5), {0, 1}, 0, 0)
    ensures Exec(AHEAD, Race(0, 1, 0, 5)).agents == [Agent("a", 0, 6, Leader), Agent("b", 1, 6, Leader)]
  {
    RaceEndsTwice(AHEAD, {0, 1}, 0, 1);
  }
}
