/**
 * What every step of the orchestrator keeps about the forest of agents, the concurrency slots and
 * the spawn requests (crates/visp-agent/src/orchestrator.rs).
 */
module SpawnInvariants {
  import opened Collections
  import opened ActiveAgents
  import opened Orchestration

  // ---- The forest ----

  ghost predicate Forest(s: State) {
    && Ranked(s.agents, s.rank)
    && s.sessions.Keys <= s.rank.Keys
    && forall id :: id in s.rank ==> s.rank[id] < s.births
  }

  // ---- The slots ----

  /** As many live sub-agents as the configuration allows; 0 allows any number a machine word counts. */
  predicate AtCap(cfg: Config, n: nat) {
    if cfg.maxConcurrent == 0 then n >= 0xFFFF_FFFF_FFFF_FFFF else n >= cfg.maxConcurrent
  }

  lemma CapIs(cfg: Config, n: nat)
    ensures AtCap(cfg, n) <==> n >= ConcurrencyLimit(cfg)
  {
  }

  /** Join handles belong to the live sub-agents, every response channel to one of them, and the cap holds. */
  ghost predicate Slots(cfg: Config, s: State) {
    && s.handles == SubAgents(s.agents) == s.running.Keys
    && s.pending.Keys <= s.handles
    && (forall c :: c in s.pending ==> s.pending[c] == s.running[c])
    && |s.handles| <= ConcurrencyLimit(cfg)
  }

  // ---- The requests ----

  ghost function Waiting(queue: seq<Spawn>): set<nat> {
    set r | r in queue :: r.ticket
  }

  ghost function Serving(running: map<Id, nat>): set<nat> {
    set c | c in running :: running[c]
  }

  ghost predicate Injective(running: map<Id, nat>) {
    forall c, d | c in running && d in running :: running[c] == running[d] ==> c == d
  }

  ghost predicate InOrder(queue: seq<Spawn>) {
    forall i, j :: 0 <= i < j < |queue| ==> queue[i].ticket < queue[j].ticket
  }

  /** In how many places a ticket is. */
  ghost function Places(
    rejected: set<nat>, waiting: set<nat>, serving: set<nat>, finished: set<nat>, hand: set<nat>, k: nat): nat {
    (if k in rejected then 1 else 0) + (if k in waiting then 1 else 0) + (if k in serving then 1 else 0)
    + (if k in finished then 1 else 0) + (if k in hand then 1 else 0)
  }

  /** Every ticket handed out is in exactly one place, a ticket not handed out in none. */
  ghost predicate Accounted(s: State, hand: set<nat>) {
    && (forall k: nat :: Places(s.rejected, Waiting(s.queue), Serving(s.running), s.finished, hand, k)
                         == if k < s.received then 1 else 0)
    && Injective(s.running) && InOrder(s.queue)
  }

  /** Every answered channel belongs to a finished request, and no channel was answered twice. */
  ghost predicate AnsweredOnce(s: State) {
    && (forall r :: r in s.replies ==> r.ticket in s.finished)
    && (forall i, j :: 0 <= i < j < |s.replies| ==> s.replies[i].ticket != s.replies[j].ticket)
  }

  ghost predicate Tickets(s: State) {
    Accounted(s, {}) && AnsweredOnce(s)
  }

  ghost predicate SpawnInv(cfg: Config, s: State) {
    Forest(s) && Slots(cfg, s) && Tickets(s)
  }

  lemma InitialInv(cfg: Config)
    ensures SpawnInv(cfg, INITIAL)
  {
    assert SubAgents(INITIAL.agents) == {} && Waiting([]) == {} && Serving(map[]) == {};
  }

  // ---- Moving one request ----

  lemma WaitingConcat(a: seq<Spawn>, b: seq<Spawn>)
    ensures Waiting(a + b) == Waiting(a) + Waiting(b)
    ensures |b| == 1 ==> Waiting(b) == {b[0].ticket}
    ensures |a| == 1 ==> Waiting(a) == {a[0].ticket}
  {
  }

  lemma ServingAdd(running: map<Id, nat>, c: Id, k: nat)
    requires c !in running
    ensures Serving(running[c := k]) == Serving(running) + {k}
  {
    var r := running[c := k];
    assert r[c] == k;
    assert forall d :: d in running ==> r[d] == running[d];
  }

  lemma ServingRemove(running: map<Id, nat>, c: Id)
    requires c in running && Injective(running)
    ensures Serving(running - {c}) == Serving(running) - {running[c]}
  {
    var r := running - {c};
    assert forall d :: d in r ==> r[d] == running[d];
  }

  lemma SubAgentsAdd(agents: Agents, a: ActiveAgent)
    requires a.session !in agents
    ensures SubAgents(agents[a.session := a]) == SubAgents(agents) + if a.parent.Some? then {a.session} else {}
  {
  }

  lemma CreateKeepsForest(s: State, req: Spawn, child: Id, status: Status)
    requires Forest(s) && child !in s.rank
    ensures Forest(CreateChild(s, req, child, status))
  {
  }

  lemma LaunchKeepsForest(s: State, req: Spawn, child: Id)
    requires Forest(s) && child in s.rank && child !in s.agents
    requires req.parent in s.rank && s.rank[req.parent] < s.rank[child]
    ensures Forest(Launch(s, req, child))
  {
  }

  lemma LaunchKeepsSlots(cfg: Config, s: State, req: Spawn, child: Id)
    requires Slots(cfg, s) && child !in s.agents && |SubAgents(s.agents)| < ConcurrencyLimit(cfg)
    ensures Slots(cfg, Launch(s, req, child))
  {
    SubAgentsAdd(s.agents, ActiveAgent(child, Some(req.parent), req.kind, Some(req.callId), false));
    hide SubAgents;
  }

  lemma RejectKeepsTickets(s: State, req: Spawn)
    requires Accounted(s, {req.ticket}) && AnsweredOnce(s)
    ensures Tickets(Reject(s, req))
  {
    hide Waiting, Serving, Injective, InOrder;
    var r := Reject(s, req);
    forall k: nat
      ensures Places(r.rejected, Waiting(r.queue), Serving(r.running), r.finished, {}, k)
           == Places(s.rejected, Waiting(s.queue), Serving(s.running), s.finished, {req.ticket}, k)
    {
      assert Places(s.rejected, Waiting(s.queue), Serving(s.running), s.finished, {req.ticket}, k) <= 1;
    }
  }

  lemma EnqueueKeepsTickets(s: State, req: Spawn)
    requires Accounted(s, {req.ticket}) && AnsweredOnce(s)
    requires forall r :: r in s.queue ==> r.ticket < req.ticket
    ensures Tickets(Enqueue(s, req))
  {
    hide Waiting, Serving, Injective;
    var r := Enqueue(s, req);
    WaitingConcat(s.queue, [req]);
    forall k: nat
      ensures Places(r.rejected, Waiting(r.queue), Serving(r.running), r.finished, {}, k)
           == Places(s.rejected, Waiting(s.queue), Serving(s.running), s.finished, {req.ticket}, k)
    {
      assert Places(s.rejected, Waiting(s.queue), Serving(s.running), s.finished, {req.ticket}, k) <= 1;
    }
  }

  lemma LaunchKeepsTickets(s: State, req: Spawn, child: Id)
    requires Accounted(s, {req.ticket}) && AnsweredOnce(s) && child !in s.running
    ensures Tickets(Launch(s, req, child))
  {
    hide Waiting, Serving, InOrder;
    var r := Launch(s, req, child);
    ServingAdd(s.running, child, req.ticket);
    assert Places(s.rejected, Waiting(s.queue), Serving(s.running), s.finished, {req.ticket}, req.ticket) <= 1;
    InjectiveAdd(s.running, child, req.ticket);
    hide Injective;
    forall k: nat
      ensures Places(r.rejected, Waiting(r.queue), Serving(r.running), r.finished, {}, k)
           == Places(s.rejected, Waiting(s.queue), Serving(s.running), s.finished, {req.ticket}, k)
    {
      assert Places(s.rejected, Waiting(s.queue), Serving(s.running), s.finished, {req.ticket}, k) <= 1;
    }
  }

  lemma InjectiveAdd(running: map<Id, nat>, c: Id, k: nat)
    requires Injective(running) && k !in Serving(running)
    ensures Injective(running[c := k])
  {
    assert forall d :: d in running ==> running[d] in Serving(running);
  }

  /** What each way a spawn can go does to the agents, the sessions and the published events. */
  lemma StepsOfSpawn(s: State, req: Spawn, child: Id)
    ensures var r := Reject(s, req); r == s.(rejected := r.rejected)
    ensures var r := Enqueue(s, req); r == s.(queue := r.queue)
    ensures forall status :: var c := CreateChild(s, req, child, status);
              && c == s.(sessions := s.sessions[child := Session(Some(req.parent), status, false)],
                         rank := s.rank[child := s.births], births := c.births)
              && var r := Reject(c, req); r == c.(rejected := r.rejected)
    ensures forall status :: var c := CreateChild(s, req, child, status);
              var l := Launch(c, req, child);
              && l.rank == c.rank && l.sessions == c.sessions && l.published == c.published && l.sources == c.sources
              && l.agents == c.agents[child := ActiveAgent(child, Some(req.parent), req.kind, Some(req.callId), false)]
  {
  }

  /** A spawn puts the request in hand in one place: refused, queued, or served by a fresh child. */
  lemma SpawnKeepsInv(cfg: Config, s: State, req: Spawn, env: SpawnEnv)
    requires Forest(s) && Slots(cfg, s) && Accounted(s, {req.ticket}) && AnsweredOnce(s)
    requires |SubAgents(s.agents)| >= ConcurrencyLimit(cfg) ==> forall r :: r in s.queue ==> r.ticket < req.ticket
    ensures SpawnInv(cfg, SpawnSub(cfg, s, req, env))
  {
    assert Ranked(s.agents, s.rank);
    hide Ranked, Accounted, AnsweredOnce, SubAgents, ConcurrencyLimit;
    if Depth(s.agents, s.rank, req.parent) >= cfg.maxDepth {
      RejectKeepsTickets(s, req);
    } else if |SubAgents(s.agents)| >= ConcurrencyLimit(cfg) {
      EnqueueKeepsTickets(s, req);
    } else if !env.known || req.parent !in s.sessions || !env.createOk || env.child in s.rank {
      RejectKeepsTickets(s, req);
    } else {
      var status := if env.startOk then Running else Idle;
      var c := CreateChild(s, req, env.child, status);
      CreateKeepsForest(s, req, env.child, status);
      SameTickets(s, c, {req.ticket});
      if !env.startOk || !env.provider {
        RejectKeepsTickets(c, req);
      } else {
        NotLive(s, env.child);
        LaunchKeepsForest(c, req, env.child);
        LaunchKeepsSlots(cfg, c, req, env.child);
        LaunchKeepsTickets(c, req, env.child);
      }
    }
  }

  lemma NotLive(s: State, id: Id)
    requires Forest(s) && id !in s.rank
    ensures id !in s.agents && id !in SubAgents(s.agents)
  {
  }

  /** The bookkeeping does not look at agents, sessions or hooks. */
  lemma SameTickets(s: State, r: State, hand: set<nat>)
    requires Accounted(s, hand) && AnsweredOnce(s)
    requires r.queue == s.queue && r.running == s.running && r.replies == s.replies
    requires r.received == s.received && r.rejected == s.rejected && r.finished == s.finished
    ensures Accounted(r, hand) && AnsweredOnce(r)
    ensures hand == {} ==> Tickets(r)
  {
  }

  // ---- Finishing ----

  lemma RetireKeepsForest(s: State, id: Id, status: Status)
    requires Forest(s)
    ensures Forest(Retire(s, id, status))
  {
  }

  lemma SubAgentsRemove(agents: Agents, id: Id)
    ensures SubAgents(agents - {id}) == SubAgents(agents) - {id}
  {
  }

  lemma RetireKeepsSlots(cfg: Config, s: State, id: Id, status: Status)
    requires Slots(cfg, s)
    ensures Slots(cfg, Retire(s, id, status))
    ensures id in SubAgents(s.agents) ==> |SubAgents(Retire(s, id, status).agents)| < ConcurrencyLimit(cfg)
  {
    hide SubAgents;
    SubAgentsRemove(s.agents, id);
    if id in SubAgents(s.agents) {
      assert |s.handles - {id}| == |s.handles| - 1;
    } else {
      assert s.handles - {id} == s.handles;
    }
  }

  lemma RetireKeepsTickets(s: State, id: Id, status: Status)
    requires Tickets(s)
    ensures Tickets(Retire(s, id, status))
    ensures id in s.running ==> s.running[id] !in s.finished && s.running[id] in Retire(s, id, status).finished
  {
    hide Waiting, Serving, InOrder;
    var r := Retire(s, id, status);
    if id in s.running {
      var t := s.running[id];
      ServingRemove(s.running, id);
      ServingHas(s.running, id);
      assert Places(s.rejected, Waiting(s.queue), Serving(s.running), s.finished, {}, t) <= 1;
      forall k: nat
        ensures Places(r.rejected, Waiting(r.queue), Serving(r.running), r.finished, {}, k)
             == Places(s.rejected, Waiting(s.queue), Serving(s.running), s.finished, {}, k)
      {
      }
    } else {
      assert s.running - {id} == s.running;
    }
  }

  lemma ServingHas(running: map<Id, nat>, c: Id)
    requires c in running
    ensures running[c] in Serving(running)
  {
  }

  lemma AnswerKeepsOnce(s: State, ticket: nat, child: Id, ok: bool, before: State)
    requires AnsweredOnce(before) && s.replies == before.replies && before.finished <= s.finished
    requires ticket !in before.finished && ticket in s.finished
    ensures AnsweredOnce(Answer(s, ticket, child, ok))
  {
    assert forall i :: 0 <= i < |before.replies| ==> before.replies[i] in before.replies;
  }

  lemma FinishKeepsInv(cfg: Config, s: State, id: Id, status: Status, ok: bool, hook: Hook)
    requires SpawnInv(cfg, s)
    ensures SpawnInv(cfg, FinishAgent(s, id, status, ok, hook))
    ensures !Stale(s, id) && id in SubAgents(s.agents) ==>
              |SubAgents(FinishAgent(s, id, status, ok, hook).agents)| < ConcurrencyLimit(cfg)
  {
    if !Stale(s, id) {
      var r := Retire(s, id, status);
      RetireKeepsForest(s, id, status);
      RetireKeepsSlots(cfg, s, id, status);
      RetireKeepsTickets(s, id, status);
      assert id in s.pending ==> id in s.running && s.pending[id] == s.running[id];
      RetireFacts(s, id, status);
      hide Retire, Accounted, Slots, Forest, SubAgents, ConcurrencyLimit;
      if id in s.pending {
        AnswerKeepsOnce(r, s.pending[id], id, ok, s);
        SameCounts(r, Answer(r, s.pending[id], id, ok));
        SameForest(cfg, r, Answer(r, s.pending[id], id, ok));
      } else if s.agents[id].parent.None? {
        SameTickets(r, Publish(r, id, hook), {});
        SameForest(cfg, r, Publish(r, id, hook));
      }
    }
  }

  lemma RetireFacts(s: State, id: Id, status: Status)
    ensures Retire(s, id, status).replies == s.replies && s.finished <= Retire(s, id, status).finished
  {
  }

  lemma SameForest(cfg: Config, s: State, r: State)
    requires Forest(s) && Slots(cfg, s)
    requires r.agents == s.agents && r.sessions == s.sessions && r.rank == s.rank && r.births == s.births
    requires r.handles == s.handles && r.pending == s.pending && r.running == s.running
    ensures Forest(r) && Slots(cfg, r)
  {
  }

  lemma SameCounts(s: State, r: State)
    requires Accounted(s, {})
    requires r.queue == s.queue && r.running == s.running
    requires r.received == s.received && r.rejected == s.rejected && r.finished == s.finished
    ensures Accounted(r, {})
  {
  }

  /** Taking the head of the queue puts its request in hand. */
  lemma PopKeepsTickets(s: State)
    requires Tickets(s) && s.queue != []
    ensures Accounted(s.(queue := s.queue[1..]), {s.queue[0].ticket}) && AnsweredOnce(s.(queue := s.queue[1..]))
    ensures forall r :: r in s.queue[1..] ==> s.queue[0].ticket < r.ticket
  {
    hide Serving, Injective, Waiting;
    var r := s.(queue := s.queue[1..]);
    assert s.queue == [s.queue[0]] + s.queue[1..];
    WaitingConcat([s.queue[0]], s.queue[1..]);
    HeadNotLater(s.queue);
    forall k: nat
      ensures Places(r.rejected, Waiting(r.queue), Serving(r.running), r.finished, {s.queue[0].ticket}, k)
           == Places(s.rejected, Waiting(s.queue), Serving(s.running), s.finished, {}, k)
    {
    }
  }

  lemma HeadNotLater(queue: seq<Spawn>)
    requires queue != [] && InOrder(queue)
    ensures queue[0].ticket !in Waiting(queue[1..])
  {
  }

  lemma DrainKeepsInv(cfg: Config, s: State, env: SpawnEnv)
    requires SpawnInv(cfg, s)
    ensures SpawnInv(cfg, Drain(cfg, s, env))
  {
    if |SubAgents(s.agents)| < ConcurrencyLimit(cfg) && s.queue != [] {
      PopKeepsTickets(s);
      SpawnKeepsInv(cfg, s.(queue := s.queue[1..]), s.queue[0], env);
    }
  }

  lemma OldTickets(s: State)
    requires Accounted(s, {})
    ensures forall q :: q in s.queue ==> q.ticket < s.received
  {
    forall q | q in s.queue
      ensures q.ticket < s.received
    {
      assert q.ticket in Waiting(s.queue);
      assert Places(s.rejected, Waiting(s.queue), Serving(s.running), s.finished, {}, q.ticket) >= 1;
    }
  }

  lemma TakeTicket(s: State)
    requires Tickets(s)
    ensures var r := s.(received := s.received + 1); Accounted(r, {s.received}) && AnsweredOnce(r)
  {
    hide Waiting, Serving, Injective, InOrder;
    var r := s.(received := s.received + 1);
    forall k: nat
      ensures Places(r.rejected, Waiting(r.queue), Serving(r.running), r.finished, {s.received}, k)
           == if k < r.received then 1 else 0
    {
      assert Places(s.rejected, Waiting(s.queue), Serving(s.running), s.finished, {}, k)
          == if k < s.received then 1 else 0;
    }
  }

  /** A new request gets the next ticket, larger than every waiting one. */
  lemma ReceiveKeepsInv(
    cfg: Config, s: State, parent: Id, callId: string, kind: string, wantsReply: bool, env: SpawnEnv)
    requires SpawnInv(cfg, s)
    ensures SpawnInv(cfg, Receive(cfg, s, parent, callId, kind, wantsReply, env))
  {
    hide Accounted, AnsweredOnce, Ranked, SubAgents, SpawnSub;
    var r := s.(received := s.received + 1);
    OldTickets(s);
    TakeTicket(s);
    SameForest(cfg, s, r);
    SpawnKeepsInv(cfg, r, Spawn(s.received, parent, callId, kind, wantsReply), env);
  }

  // ---- Steps that leave the requests alone ----

  lemma UserInputKeepsInv(cfg: Config, s: State, id: Id, env: StartEnv)
    requires SpawnInv(cfg, s) && Agree(s)
    ensures SpawnInv(cfg, HandleUserInput(s, id, env))
  {
    var r := HandleUserInput(s, id, env);
    UserInputFacts(s, id, env);
    SameTickets(s, r, {});
    hide HandleUserInput, SubAgents, Tickets, Ranked;
  }

  /** Nothing about the requests has changed. */
  ghost predicate SameRequests(s: State, r: State) {
    && r.queue == s.queue && r.replies == s.replies && r.received == s.received && r.rejected == s.rejected
    && r.handles == s.handles && r.running == s.running && r.finished == s.finished && r.started == s.started
  }

  /** The parts of the state that starting a main agent does not touch. */
  ghost predicate SameSpawnSide(s: State, r: State) {
    SameRequests(s, r) && r.rank == s.rank && r.births == s.births && r.pending == s.pending
  }

  lemma BeginTurnFacts(s: State, id: Id, name: string)
    requires Forest(s) && id in s.sessions && (id in s.agents ==> s.agents[id].parent.None?)
    ensures var r := BeginTurn(s, id, name);
            && SameSpawnSide(s, r) && Ranked(r.agents, r.rank)
            && r.sessions.Keys == s.sessions.Keys && SubAgents(r.agents) == SubAgents(s.agents)
  {
    var r := BeginTurn(s, id, name);
    assert r.agents == s.agents[id := ActiveAgent(id, None, name, None, false)];
    assert r.sessions == s.sessions[id := s.sessions[id].(status := Running, cancelled := false)];
    assert SameSpawnSide(s, r);
    hide BeginTurn;
  }

  /** User input changes at most one root agent and the session it belongs to. */
  lemma UserInputFacts(s: State, id: Id, env: StartEnv)
    requires Forest(s) && Agree(s)
    ensures var r := HandleUserInput(s, id, env);
            && SameSpawnSide(s, r) && Ranked(r.agents, r.rank)
            && r.sessions.Keys == s.sessions.Keys && SubAgents(r.agents) == SubAgents(s.agents)
  {
    hide BeginTurn, SubAgents;
    if id in s.sessions && s.sessions[id].parent.None? {
      var s1 := ResetTerminal(s, id);
      assert s1 == s.(sessions := s1.sessions) && s1.sessions.Keys == s.sessions.Keys;
      BeginTurnFacts(s1, id, env.name);
    }
  }

  lemma CancelKeepsInv(cfg: Config, s: State, ids: set<Id>)
    requires SpawnInv(cfg, s)
    ensures SpawnInv(cfg, CancelAll(s, ids))
  {
    var r := CancelAll(s, ids);
    SameTickets(s, r, {});
    assert SubAgents(r.agents) == SubAgents(s.agents);
    assert r.sessions.Keys == s.sessions.Keys;
  }

  /** A session and the agent registered for it agree on the parent, as long as the session is there. */
  ghost predicate Agree(s: State) {
    forall id :: id in s.agents && id in s.sessions ==> s.agents[id].parent == s.sessions[id].parent
  }

  lemma SessionStepKeepsInv(cfg: Config, s: State, m: Message)
    requires SpawnInv(cfg, s) && (m.SessionCreated? || m.SessionForgotten? || m.LoopEnded?)
    ensures SpawnInv(cfg, Next(cfg, s, m))
  {
    assert Ranked(s.agents, s.rank);
    hide SubAgents, Receive, Drain, HandleUserInput, FinishAgent, CancelAll, Cancelled, Accounted, AnsweredOnce, Forest,
      Ranked, ConcurrencyLimit, SetStatus;
    var r := Next(cfg, s, m);
    SameTickets(s, r, {});
    SessionStepKeepsForest(cfg, s, m);
    assert r.agents == s.agents && r.handles == s.handles && r.pending == s.pending && r.running == s.running;
    hide Next, Tickets;
  }

  lemma SessionStepKeepsForest(cfg: Config, s: State, m: Message)
    requires Forest(s) && (m.SessionCreated? || m.SessionForgotten? || m.LoopEnded?)
    ensures Forest(Next(cfg, s, m))
  {
    hide SubAgents, Receive, Drain, HandleUserInput, FinishAgent, CancelAll, Cancelled;
  }

  /** Every step keeps the forest, the slots and the accounting of requests. */
  lemma NextKeepsInv(cfg: Config, s: State, m: Message)
    requires SpawnInv(cfg, s) && Agree(s)
    ensures SpawnInv(cfg, Next(cfg, s, m))
  {
    assert Ranked(s.agents, s.rank);
    hide SpawnInv, Receive, Drain, HandleUserInput, FinishAgent, CancelAll, Cancelled, Ranked;
    match m
    case SpawnRequested(parent, callId, kind, wantsReply, env) =>
      ReceiveKeepsInv(cfg, s, parent, callId, kind, wantsReply, env);
    case AgentDone(id, env) =>
      FinishKeepsInv(cfg, s, id, Idle, true, Stop(false));
      DrainKeepsInv(cfg, HandleDone(s, id), env);
    case AgentError(id, byUser, env) =>
      FinishKeepsInv(cfg, s, id, Failed, false, if byUser then Stop(true) else StopFailure);
      DrainKeepsInv(cfg, HandleError(s, id, byUser), env);
    case AgentOutput(id) =>
    case UserInput(id, env) =>
      UserInputKeepsInv(cfg, s, id, env);
    case Cancel(id) =>
      CancelKeepsInv(cfg, s, Cancelled(s, id));
    case SessionCreated(id) =>
      SessionStepKeepsInv(cfg, s, m);
    case SessionForgotten(id) =>
      SessionStepKeepsInv(cfg, s, m);
    case LoopEnded(id, status) =>
      SessionStepKeepsInv(cfg, s, m);
  }
}
