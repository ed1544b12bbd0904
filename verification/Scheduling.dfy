/**
 * Order and use of the slots (crates/visp-agent/src/orchestrator.rs): as long as no request taken
 * from the queue is refused, no slot is idle while a request waits, and sub-agents start in the
 * order in which their requests arrived.
 */
module Scheduling {
  import opened ActiveAgents
  import opened Orchestration
  import opened SpawnInvariants
  import opened Lifecycle
  import opened OrchestratorRuns

  /** A request only waits while every slot is in use. */
  ghost predicate NoIdleSlot(cfg: Config, s: State) {
    s.queue != [] ==> AtCap(cfg, |s.handles|)
  }

  /** Started in order of arrival, and before everything that still waits. */
  ghost predicate StartedInOrder(s: State) {
    && (forall i, j :: 0 <= i < j < |s.started| ==> s.started[i] < s.started[j])
    && (forall k :: k in s.started ==> k < s.received)
    && (forall k, q :: k in s.started && q in s.queue ==> k < q.ticket)
  }

  /** What makes a spawn fail when there is room for it: its depth, or one of the steps to a running child. */
  ghost predicate Refused(cfg: Config, agents: Agents, rank: map<Id, nat>, sessions: set<Id>, req: Spawn, env: SpawnEnv)
    requires Ranked(agents, rank)
  {
    || Depth(agents, rank, req.parent) >= cfg.maxDepth
    || !env.known || req.parent !in sessions || !env.createOk || env.child in rank || !env.startOk || !env.provider
  }

  /** The live agents once a Done or Error has been dealt with. */
  function AgentsLeft(s: State, id: Id): Agents {
    if Stale(s, id) then s.agents else s.agents - {id}
  }

  /** A Done or Error takes the head of the queue, and its spawn fails. */
  ghost predicate PopRefused(cfg: Config, s: State, m: Message)
    requires Ranked(s.agents, s.rank)
  {
    && (m.AgentDone? || m.AgentError?) && s.queue != []
    && !AtCap(cfg, |SubAgents(AgentsLeft(s, m.id))|)
    && Refused(cfg, AgentsLeft(s, m.id), s.rank, s.sessions.Keys, s.queue[0], m.env)
  }

  lemma SpawnRefusedIff(cfg: Config, s: State, req: Spawn, env: SpawnEnv)
    requires Ranked(s.agents, s.rank) && !AtCap(cfg, |SubAgents(s.agents)|)
    ensures SpawnSub(cfg, s, req, env).rejected ==
            s.rejected + if Refused(cfg, s.agents, s.rank, s.sessions.Keys, req, env) then {req.ticket} else {}
  {
    CapIs(cfg, |SubAgents(s.agents)|);
    hide Ranked, Depth, SubAgents, ConcurrencyLimit;
  }

  lemma FinishLeaves(s: State, id: Id, status: Status, ok: bool, hook: Hook)
    ensures var f := FinishAgent(s, id, status, ok, hook);
            && f.agents == AgentsLeft(s, id) && f.sessions.Keys == s.sessions.Keys && f.rank == s.rank
            && f.queue == s.queue && f.rejected == s.rejected
  {
    hide Retire;
    RetireLeaves(s, id, status);
  }

  lemma RetireLeaves(s: State, id: Id, status: Status)
    ensures var r := Retire(s, id, status);
            && r.agents == s.agents - {id} && r.sessions.Keys == s.sessions.Keys && r.rank == s.rank
            && r.queue == s.queue && r.rejected == s.rejected
  {
  }

  lemma DrainRefusedIff(cfg: Config, s: State, env: SpawnEnv)
    requires SpawnInv(cfg, s) && Ranked(s.agents, s.rank)
    ensures Drain(cfg, s, env).rejected != s.rejected <==>
            s.queue != [] && !AtCap(cfg, |SubAgents(s.agents)|)
            && Refused(cfg, s.agents, s.rank, s.sessions.Keys, s.queue[0], env)
  {
    hide SpawnInv, SpawnSub, Ranked, SubAgents, ConcurrencyLimit, AtCap, Refused;
    CapIs(cfg, |SubAgents(s.agents)|);
    if s.queue != [] && |SubAgents(s.agents)| < ConcurrencyLimit(cfg) {
      SpawnRefusedIff(cfg, s.(queue := s.queue[1..]), s.queue[0], env);
      HeadNotRejected(cfg, s);
      assert s.rejected + {} == s.rejected;
    }
  }

  /** Whether a Done or Error refuses a waiting request can be told beforehand. */
  lemma PopRefusedIff(cfg: Config, s: State, m: Message)
    requires SpawnInv(cfg, s) && Ranked(s.agents, s.rank) && (m.AgentDone? || m.AgentError?)
    ensures PopRefused(cfg, s, m) <==> Next(cfg, s, m).rejected != s.rejected
  {
    hide SpawnInv, FinishAgent, Drain, Ranked, SubAgents, ConcurrencyLimit, AtCap, Refused, AgentsLeft;
    var hook := if m.AgentDone? then Stop(false) else if m.byUser then Stop(true) else StopFailure;
    var status := if m.AgentDone? then Idle else Failed;
    var f := FinishAgent(s, m.id, status, m.AgentDone?, hook);
    FinishKeepsInv(cfg, s, m.id, status, m.AgentDone?, hook);
    FinishLeaves(s, m.id, status, m.AgentDone?, hook);
    ServesItsChannel(cfg, f);
    DrainRefusedIff(cfg, f, m.env);
  }

  /** What a spawn does to the queue, the slots and the start order. */
  lemma SpawnOutcome(cfg: Config, s: State, req: Spawn, env: SpawnEnv)
    requires Forest(s) && Slots(cfg, s)
    ensures var r := SpawnSub(cfg, s, req, env);
            && r.received == s.received
            && ((r.rejected == s.rejected + {req.ticket} && r.queue == s.queue && r.handles == s.handles
                && r.started == s.started)
                || (r.rejected == s.rejected && r.queue == s.queue + [req] && r.handles == s.handles
                    && r.started == s.started
                    && AtCap(cfg, |s.handles|))
                || (r.rejected == s.rejected && r.queue == s.queue && env.child !in s.handles
                    && r.handles == s.handles + {env.child}
                    && r.started == s.started + [req.ticket] && !AtCap(cfg, |s.handles|)))
  {
    hide SubAgents, Depth, ConcurrencyLimit, AtCap;
    CapIs(cfg, |s.handles|);
    if env.child !in s.rank {
      NotLive(s, env.child);
    }
    hide Ranked;
  }

  lemma Parts(cfg: Config, s: State)
    requires SpawnInv(cfg, s)
    ensures Forest(s) && Slots(cfg, s) && Ranked(s.agents, s.rank)
    ensures s.handles == SubAgents(s.agents) && |s.handles| <= ConcurrencyLimit(cfg)
  {
  }

  lemma OrderAfterStart(s: State, r: State, ticket: nat)
    requires StartedInOrder(s) && r.started == s.started + [ticket] && r.received >= s.received && ticket < r.received
    requires forall k :: k in s.started ==> k < ticket
    requires forall q :: q in r.queue ==> q in s.queue && ticket < q.ticket
    ensures StartedInOrder(r)
  {
    assert forall i :: 0 <= i < |s.started| ==> s.started[i] in s.started;
  }

  lemma ReceiveKeepsOrder(
    cfg: Config, s: State, parent: Id, callId: string, kind: string, wantsReply: bool, env: SpawnEnv)
    requires SpawnInv(cfg, s) && NoIdleSlot(cfg, s) && StartedInOrder(s)
    ensures var r := Receive(cfg, s, parent, callId, kind, wantsReply, env); NoIdleSlot(cfg, r) && StartedInOrder(r)
  {
    hide SpawnSub, SpawnInv, Forest, Slots, SubAgents, ConcurrencyLimit, AtCap;
    Parts(cfg, s);
    var s1 := s.(received := s.received + 1);
    var req := Spawn(s.received, parent, callId, kind, wantsReply);
    SameForest(cfg, s, s1);
    SpawnOutcome(cfg, s1, req, env);
    var r := SpawnSub(cfg, s1, req, env);
    if r.started == s.started + [s.received] && s.queue == [] {
      OrderAfterStart(s, r, s.received);
    } else if r.queue == s.queue + [req] {
      assert forall q :: q in r.queue <==> q in s.queue || q == req;
    }
  }

  lemma DrainKeepsOrder(cfg: Config, s: State, env: SpawnEnv)
    requires SpawnInv(cfg, s) && StartedInOrder(s)
    requires s.queue != [] && |s.handles| < ConcurrencyLimit(cfg) ==> |s.handles| + 1 == ConcurrencyLimit(cfg)
    requires Drain(cfg, s, env).rejected == s.rejected
    ensures var r := Drain(cfg, s, env); NoIdleSlot(cfg, r) && StartedInOrder(r)
  {
    CapIs(cfg, |s.handles|);
    CapIs(cfg, |Drain(cfg, s, env).handles|);
    assert s.handles == SubAgents(s.agents) && Forest(s) && Slots(cfg, s);
    if |s.handles| < ConcurrencyLimit(cfg) && s.queue != [] {
      var s1 := s.(queue := s.queue[1..]);
      var head := s.queue[0];
      SameForest(cfg, s, s1);
      SpawnOutcome(cfg, s1, head, env);
      HeadNotRejected(cfg, s);
      QueueInOrder(cfg, s);
      hide SpawnInv, SpawnSub, SubAgents, ConcurrencyLimit, AtCap, Forest, Slots;
      var r := SpawnSub(cfg, s1, head, env);
      assert r.started == s.started + [head.ticket] && r.handles == s.handles + {env.child};
      assert head in s.queue;
      OrderAfterStart(s, r, head.ticket);
    }
  }

  lemma HeadNotRejected(cfg: Config, s: State)
    requires SpawnInv(cfg, s) && s.queue != []
    ensures s.queue[0].ticket !in s.rejected
  {
    assert s.queue[0].ticket in Waiting(s.queue);
    assert Places(s.rejected, Waiting(s.queue), Serving(s.running), s.finished, {}, s.queue[0].ticket) <= 1;
  }

  lemma FinishHandles(s: State, id: Id, status: Status, ok: bool, hook: Hook)
    ensures FinishAgent(s, id, status, ok, hook).handles == if Stale(s, id) then s.handles else s.handles - {id}
  {
    hide Stale;
  }

  /** How ending an agent changes the number of used slots. */
  lemma FinishSlots(cfg: Config, s: State, id: Id, status: Status, ok: bool, hook: Hook)
    requires Slots(cfg, s)
    ensures |FinishAgent(s, id, status, ok, hook).handles| ==
            |s.handles| - if !Stale(s, id) && id in SubAgents(s.agents) then 1 else 0
  {
    hide SubAgents, FinishAgent, Stale;
    FinishHandles(s, id, status, ok, hook);
    if !Stale(s, id) {
      if id in SubAgents(s.agents) {
        assert |s.handles - {id}| == |s.handles| - 1;
      } else {
        assert s.handles - {id} == s.handles;
      }
    }
  }

  lemma EndKeepsOrder(cfg: Config, s: State, id: Id, status: Status, ok: bool, hook: Hook, env: SpawnEnv)
    requires SpawnInv(cfg, s) && NoIdleSlot(cfg, s) && StartedInOrder(s)
    requires SpawnInv(cfg, FinishAgent(s, id, status, ok, hook))
    requires Drain(cfg, FinishAgent(s, id, status, ok, hook), env).rejected == s.rejected
    ensures var r := Drain(cfg, FinishAgent(s, id, status, ok, hook), env); NoIdleSlot(cfg, r) && StartedInOrder(r)
  {
    hide SpawnInv, FinishAgent, SubAgents, ConcurrencyLimit, AtCap, Drain, Stale, Forest, Slots;
    CapIs(cfg, |s.handles|);
    Parts(cfg, s);
    FinishSlots(cfg, s, id, status, ok, hook);
    FinishFacts(s, id, status, ok, hook);
    DrainKeepsOrder(cfg, FinishAgent(s, id, status, ok, hook), env);
  }

  lemma NextKeepsOrder(cfg: Config, s: State, m: Message)
    requires SpawnInv(cfg, s) && Ranked(s.agents, s.rank) && NoIdleSlot(cfg, s) && StartedInOrder(s)
    requires !PopRefused(cfg, s, m)
    ensures NoIdleSlot(cfg, Next(cfg, s, m)) && StartedInOrder(Next(cfg, s, m))
  {
    ServesItsChannel(cfg, s);
    if m.AgentDone? || m.AgentError? {
      PopRefusedIff(cfg, s, m);
    }
    hide SpawnInv, Receive, CancelAll, Cancelled, Drain, FinishAgent, HandleUserInput, SubAgents, NoIdleSlot,
      StartedInOrder, PopRefused;
    match m
    case SpawnRequested(parent, callId, kind, wantsReply, env) =>
      ReceiveKeepsOrder(cfg, s, parent, callId, kind, wantsReply, env);
    case AgentDone(id, env) =>
      FinishKeepsInv(cfg, s, id, Idle, true, Stop(false));
      ServesItsChannel(cfg, HandleDone(s, id));
      EndKeepsOrder(cfg, s, id, Idle, true, Stop(false), env);
    case AgentError(id, byUser, env) =>
      var hook := if byUser then Stop(true) else StopFailure;
      FinishKeepsInv(cfg, s, id, Failed, false, hook);
      ServesItsChannel(cfg, HandleError(s, id, byUser));
      EndKeepsOrder(cfg, s, id, Failed, false, hook, env);
    case _ =>
      OtherStep(cfg, s, m);
      SameOrder(cfg, s, Next(cfg, s, m));
  }

  lemma SameOrder(cfg: Config, s: State, r: State)
    requires NoIdleSlot(cfg, s) && StartedInOrder(s) && SameRequests(s, r)
    ensures NoIdleSlot(cfg, r) && StartedInOrder(r)
  {
  }

  /** No idle slot and first come, first served, over every run in which no popped request is refused. */
  lemma {:induction false} RunInOrder(cfg: Config, ss: seq<State>, ms: seq<Message>, i: nat)
    requires Run(cfg, ss, ms) && i <= |ms|
    requires forall k :: 0 <= k < i ==> Ranked(ss[k].agents, ss[k].rank) && !PopRefused(cfg, ss[k], ms[k])
    ensures NoIdleSlot(cfg, ss[i]) && StartedInOrder(ss[i])
  {
    hide Next, SpawnInv, LifeInv;
    if i > 0 {
      RunInOrder(cfg, ss, ms, i - 1);
      RunKeepsInv(cfg, ss, ms, i - 1);
      assert Stepped(cfg, ss[i - 1], ms[i - 1], ss[i]) && !PopRefused(cfg, ss[i - 1], ms[i - 1]);
      hide NoIdleSlot, StartedInOrder, PopRefused;
      NextKeepsOrder(cfg, ss[i - 1], ms[i - 1]);
    }
  }

  /**
   * Why the condition is there: with all slots in use, the end of a sub-agent leaves a slot idle while
   * a request waits exactly when two or more are waiting and the spawn of the first fails.
   */
  lemma SlotRefilledIff(cfg: Config, s: State, m: Message)
    requires SpawnInv(cfg, s) && NoIdleSlot(cfg, s) && RetiresSub(s, m)
    ensures Ranked(s.agents, s.rank) && Ranked(s.agents - {m.id}, s.rank)
    ensures NoIdleSlot(cfg, Next(cfg, s, m)) <==>
            |s.queue| < 2 || !Refused(cfg, s.agents - {m.id}, s.rank, s.sessions.Keys, s.queue[0], m.env)
  {
    Parts(cfg, s);
    assert Ranked(s.agents - {m.id}, s.rank);
    CapIs(cfg, |s.handles|);
    CapIs(cfg, |Next(cfg, s, m).handles|);
    hide SpawnInv, FinishAgent, SpawnSub, SubAgents, ConcurrencyLimit, AtCap, Forest, Slots, Tickets, Stale, Refused,
      Ranked;
    var hook := if m.AgentDone? then Stop(false) else if m.byUser then Stop(true) else StopFailure;
    var status := if m.AgentDone? then Idle else Failed;
    var f := FinishAgent(s, m.id, status, m.AgentDone?, hook);
    FinishKeepsInv(cfg, s, m.id, status, m.AgentDone?, hook);
    FinishSlots(cfg, s, m.id, status, m.AgentDone?, hook);
    FinishLeaves(s, m.id, status, m.AgentDone?, hook);
    Parts(cfg, f);
    if s.queue != [] {
      RefillOutcome(cfg, f, m.env);
    }
  }

  lemma RefillOutcome(cfg: Config, s: State, env: SpawnEnv)
    requires SpawnInv(cfg, s) && Ranked(s.agents, s.rank) && s.queue != [] && |s.handles| + 1 == ConcurrencyLimit(cfg)
    ensures var r := Drain(cfg, s, env);
            && r.queue == s.queue[1..]
            && |r.handles|
                == |s.handles| + if Refused(cfg, s.agents, s.rank, s.sessions.Keys, s.queue[0], env) then 0 else 1
  {
    hide SpawnInv, SpawnSub, SubAgents, ConcurrencyLimit, AtCap, Forest, Slots, Tickets, Refused, Ranked;
    CapIs(cfg, |s.handles|);
    Parts(cfg, s);
    var s1 := s.(queue := s.queue[1..]);
    var r := SpawnSub(cfg, s1, s.queue[0], env);
    assert r == Drain(cfg, s, env);
    hide Drain, SpawnSub;
    SameForest(cfg, s, s1);
    SpawnOutcome(cfg, s1, s.queue[0], env);
    SpawnRefusedIff(cfg, s1, s.queue[0], env);
    HeadNotRejected(cfg, s);
    assert s.rejected + {} == s.rejected;
  }
}
