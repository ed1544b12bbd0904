/**
 * Whole runs of the orchestrator (crates/visp-agent/src/orchestrator.rs): any messages, in any order,
 * from the start of the daemon.
 */
module OrchestratorRuns {
  import opened ActiveAgents
  import opened Orchestration
  import opened SpawnInvariants
  import opened Lifecycle

  ghost predicate Stepped(cfg: Config, s: State, m: Message, r: State) {
    Ranked(s.agents, s.rank) && r == Next(cfg, s, m)
  }

  ghost predicate Run(cfg: Config, ss: seq<State>, ms: seq<Message>) {
    && |ss| == |ms| + 1 && ss[0] == INITIAL
    && forall i :: 0 <= i < |ms| ==> Stepped(cfg, ss[i], ms[i], ss[i + 1])
  }

  /** Every reachable state has all invariants. */
  lemma {:induction false} RunKeepsInv(cfg: Config, ss: seq<State>, ms: seq<Message>, i: nat)
    requires Run(cfg, ss, ms) && i <= |ms|
    ensures SpawnInv(cfg, ss[i]) && LifeInv(ss[i])
  {
    hide SpawnInv, LifeInv, Next;
    if i == 0 {
      InitialInv(cfg);
      InitialLife();
    } else {
      RunKeepsInv(cfg, ss, ms, i - 1);
      assert Stepped(cfg, ss[i - 1], ms[i - 1], ss[i]);
      LifeAgrees(ss[i - 1]);
      NextKeepsInv(cfg, ss[i - 1], ms[i - 1]);
      NextKeepsLife(cfg, ss[i - 1], ms[i - 1]);
    }
  }

  lemma LifeAgrees(s: State)
    requires LifeInv(s)
    ensures Agree(s)
  {
  }

  // ---- Conservation ----

  lemma {:induction false} WaitingSize(queue: seq<Spawn>)
    requires InOrder(queue)
    ensures |Waiting(queue)| == |queue|
  {
    if queue != [] {
      var init, last := queue[..|queue| - 1], queue[|queue| - 1];
      assert queue == init + [last];
      WaitingSize(init);
      WaitingConcat(init, [last]);
      assert last.ticket !in Waiting(init);
    }
  }

  lemma {:induction false} ServingSize(running: map<Id, nat>)
    requires Injective(running)
    ensures |Serving(running)| == |running|
    decreases |running|
  {
    if running != map[] {
      var c :| c in running;
      ServingRemove(running, c);
      ServingHas(running, c);
      assert (running - {c}).Keys == running.Keys - {c};
      ServingSize(running - {c});
    }
  }

  lemma {:induction false} RangeSize(n: nat, s: set<nat>)
    requires forall k: nat :: k in s <==> k < n
    ensures |s| == n
  {
    if n > 0 {
      RangeSize(n - 1, s - {n - 1});
    }
  }

  /** Requests received = rejected + waiting + running + finished. */
  lemma RequestsConserved(cfg: Config, s: State)
    requires SpawnInv(cfg, s)
    ensures s.received == |s.rejected| + |s.queue| + |s.running| + |s.finished|
  {
    var w, v := Waiting(s.queue), Serving(s.running);
    WaitingSize(s.queue);
    ServingSize(s.running);
    assert forall k: nat :: Places(s.rejected, w, v, s.finished, {}, k) == if k < s.received then 1 else 0;
    hide Waiting, Serving, Injective, InOrder, Forest, Slots, AnsweredOnce;
    Disjoint4(s.rejected, w, v, s.finished, s.received);
  }

  lemma Disjoint4(a: set<nat>, b: set<nat>, c: set<nat>, d: set<nat>, n: nat)
    requires forall k: nat :: Places(a, b, c, d, {}, k) == if k < n then 1 else 0
    ensures |a| + |b| + |c| + |d| == n
  {
    forall k: nat
      ensures k in a + b + c + d <==> k < n
      ensures (k in a ==> k !in b && k !in c && k !in d) && (k in b ==> k !in c && k !in d) && (k in c ==> k !in d)
    {
      assert Places(a, b, c, d, {}, k) == if k < n then 1 else 0;
    }
    RangeSize(n, a + b + c + d);
    assert a !! b && (a + b) !! c && (a + b + c) !! d;
    hide Places;
    assert |a + b| == |a| + |b|;
    assert |a + b + c| == |a + b| + |c|;
  }

  /**
   * A response channel is answered at most once, by the end of the very child that serves its
   * request, and before that it is held for that child alone.
   */
  lemma AnsweredByOwnChild(cfg: Config, s: State, m: Message)
    requires SpawnInv(cfg, s)
    ensures var r := Next(cfg, s, m);
            if (m.AgentDone? || m.AgentError?) && m.id in s.pending then
              && m.id in s.running && s.pending[m.id] == s.running[m.id]
              && r.replies == s.replies + [Reply(s.running[m.id], m.id, m.AgentDone?)]
            else r.replies == s.replies
  {
    hide SpawnInv, SpawnSub, CancelAll, Cancelled, FinishAgent, HandleUserInput;
    ServesItsChannel(cfg, s);
    match m
    case SpawnRequested(parent, callId, kind, wantsReply, env) =>
      SpawnReplies(cfg, s.(received := s.received + 1), Spawn(s.received, parent, callId, kind, wantsReply), env);
    case AgentDone(id, env) =>
      FinishKeepsInv(cfg, s, id, Idle, true, Stop(false));
      FinishFacts(s, id, Idle, true, Stop(false));
      DrainReplies(cfg, HandleDone(s, id), env);
    case AgentError(id, byUser, env) =>
      FinishKeepsInv(cfg, s, id, Failed, false, if byUser then Stop(true) else StopFailure);
      FinishFacts(s, id, Failed, false, if byUser then Stop(true) else StopFailure);
      DrainReplies(cfg, HandleError(s, id, byUser), env);
    case _ =>
      OtherStep(cfg, s, m);
  }

  lemma ServesItsChannel(cfg: Config, s: State)
    requires SpawnInv(cfg, s)
    ensures Forest(s) && Ranked(s.agents, s.rank)
    ensures forall c :: c in s.pending ==> c in s.running && s.pending[c] == s.running[c] && !Stale(s, c)
  {
  }

  lemma SpawnReplies(cfg: Config, s: State, req: Spawn, env: SpawnEnv)
    requires Ranked(s.agents, s.rank)
    ensures SpawnSub(cfg, s, req, env).replies == s.replies
  {
  }

  lemma DrainReplies(cfg: Config, s: State, env: SpawnEnv)
    requires SpawnInv(cfg, s)
    ensures Drain(cfg, s, env).replies == s.replies
  {
    hide SpawnSub;
    if |SubAgents(s.agents)| < ConcurrencyLimit(cfg) && s.queue != [] {
      SpawnReplies(cfg, s.(queue := s.queue[1..]), s.queue[0], env);
    }
  }

  /** What ending an agent leaves alone, and what it answers. */
  lemma FinishFacts(s: State, id: Id, status: Status, ok: bool, hook: Hook)
    ensures var r := FinishAgent(s, id, status, ok, hook);
            && r.queue == s.queue && r.received == s.received && r.rejected == s.rejected && r.started == s.started
            && r.replies == if id in s.pending && !Stale(s, id) then s.replies + [Reply(s.pending[id], id, ok)]
                else s.replies
  {
  }

  /** The messages that neither request nor end an agent leave the request side alone. */
  lemma OtherStep(cfg: Config, s: State, m: Message)
    requires SpawnInv(cfg, s) && !m.SpawnRequested? && !m.AgentDone? && !m.AgentError?
    ensures SameRequests(s, Next(cfg, s, m))
  {
    hide SpawnInv, SpawnSub, Cancelled, FinishAgent, BeginTurn;
    ServesItsChannel(cfg, s);
    if m.UserInput? && m.id in s.sessions {
      BeginFields(ResetTerminal(s, m.id), m.id, m.start.name);
    }
  }

  lemma BeginFields(s: State, id: Id, name: string)
    requires id in s.sessions
    ensures SameRequests(s, BeginTurn(s, id, name))
  {
  }

  // ---- The queue ----

  /** A Done or Error that ends a live sub-agent. */
  ghost predicate RetiresSub(s: State, m: Message) {
    (m.AgentDone? || m.AgentError?) && !Stale(s, m.id) && m.id in SubAgents(s.agents)
  }

  lemma SpawnQueue(cfg: Config, s: State, req: Spawn, env: SpawnEnv)
    requires Ranked(s.agents, s.rank)
    ensures SpawnSub(cfg, s, req, env).queue == s.queue
            || (SpawnSub(cfg, s, req, env).queue == s.queue + [req] && |SubAgents(s.agents)| >= ConcurrencyLimit(cfg))
    ensures SpawnSub(cfg, s, req, env).received == s.received
  {
  }

  lemma DrainQueue(cfg: Config, s: State, env: SpawnEnv)
    requires Ranked(s.agents, s.rank)
    ensures Drain(cfg, s, env).queue ==
            if |SubAgents(s.agents)| < ConcurrencyLimit(cfg) && s.queue != [] then s.queue[1..] else s.queue
    ensures Drain(cfg, s, env).received == s.received
  {
    if |SubAgents(s.agents)| < ConcurrencyLimit(cfg) && s.queue != [] {
      SpawnQueue(cfg, s.(queue := s.queue[1..]), s.queue[0], env);
    }
  }

  /**
   * One step appends the newest request, takes the head, or leaves the queue alone; ending a live
   * sub-agent always takes the head.
   */
  lemma QueueStep(cfg: Config, s: State, m: Message)
    requires SpawnInv(cfg, s)
    ensures var r := Next(cfg, s, m);
            && s.received <= r.received
            && (r.queue == s.queue
                || (r.queue != [] && r.queue[|r.queue| - 1].ticket == s.received < r.received
                    && r.queue == s.queue + [r.queue[|r.queue| - 1]]
                    && AtCap(cfg, |SubAgents(s.agents)|))
                || (s.queue != [] && r.queue == s.queue[1..]))
            && (RetiresSub(s, m) && s.queue != [] ==> r.queue == s.queue[1..])
  {
    hide SpawnInv, SpawnSub, CancelAll, Cancelled, Drain, FinishAgent, HandleUserInput, SubAgents, AtCap;
    CapIs(cfg, |SubAgents(s.agents)|);
    ServesItsChannel(cfg, s);
    match m
    case SpawnRequested(parent, callId, kind, wantsReply, env) =>
      SpawnQueue(cfg, s.(received := s.received + 1), Spawn(s.received, parent, callId, kind, wantsReply), env);
    case AgentDone(id, env) =>
      FinishKeepsInv(cfg, s, id, Idle, true, Stop(false));
      FinishFacts(s, id, Idle, true, Stop(false));
      ServesItsChannel(cfg, HandleDone(s, id));
      DrainQueue(cfg, HandleDone(s, id), env);
    case AgentError(id, byUser, env) =>
      FinishKeepsInv(cfg, s, id, Failed, false, if byUser then Stop(true) else StopFailure);
      FinishFacts(s, id, Failed, false, if byUser then Stop(true) else StopFailure);
      ServesItsChannel(cfg, HandleError(s, id, byUser));
      DrainQueue(cfg, HandleError(s, id, byUser), env);
    case _ =>
      OtherStep(cfg, s, m);
  }

  /** How many live sub-agents end between two points of a run. */
  ghost function Retirements(ss: seq<State>, ms: seq<Message>, i: nat, j: nat): nat
    requires i <= j <= |ms| && |ss| == |ms| + 1
    decreases j
  {
    if i == j then 0 else Retirements(ss, ms, i, j - 1) + if RetiresSub(ss[j - 1], ms[j - 1]) then 1 else 0
  }

  /** A request that is not waiting never waits again: what left the queue is never put back. */
  lemma {:induction false} NeverPutBack(cfg: Config, ss: seq<State>, ms: seq<Message>, i: nat, j: nat, ticket: nat)
    requires Run(cfg, ss, ms) && i <= j <= |ms|
    requires ticket < ss[i].received && ticket !in Waiting(ss[i].queue)
    ensures ticket < ss[j].received && ticket !in Waiting(ss[j].queue)
    decreases j
  {
    hide Next, SpawnInv, LifeInv;
    if i < j {
      NeverPutBack(cfg, ss, ms, i, j - 1, ticket);
      RunKeepsInv(cfg, ss, ms, j - 1);
      assert Stepped(cfg, ss[j - 1], ms[j - 1], ss[j]);
      QueueStep(cfg, ss[j - 1], ms[j - 1]);
      hide Run, Stepped, RetiresSub;
    }
  }

  /** A request still waiting has moved up by one place for every sub-agent that ended. */
  lemma {:induction false} MovesUp(cfg: Config, ss: seq<State>, ms: seq<Message>, i: nat, j: nat, pos: nat)
    requires Run(cfg, ss, ms) && i <= j <= |ms| && pos < |ss[i].queue|
    requires ss[i].queue[pos].ticket in Waiting(ss[j].queue)
    ensures exists p :: 0 <= p < |ss[j].queue| && ss[j].queue[p].ticket == ss[i].queue[pos].ticket
                        && p + Retirements(ss, ms, i, j) <= pos
    decreases j
  {
    hide Next, SpawnInv, LifeInv;
    var ticket := ss[i].queue[pos].ticket;
    if i < j {
      RunKeepsInv(cfg, ss, ms, j - 1);
      assert Stepped(cfg, ss[j - 1], ms[j - 1], ss[j]);
      WaitingIsOld(cfg, ss, ms, i, j - 1, pos);
      if ticket !in Waiting(ss[j - 1].queue) {
        NeverPutBack(cfg, ss, ms, j - 1, j, ticket);
        assert false;
      }
      MovesUp(cfg, ss, ms, i, j - 1, pos);
      var p :| 0 <= p < |ss[j - 1].queue| && ss[j - 1].queue[p].ticket == ticket
        && p + Retirements(ss, ms, i, j - 1) <= pos;
      QueueStep(cfg, ss[j - 1], ms[j - 1]);
      QueueInOrder(cfg, ss[j - 1]);
      hide Run, Stepped, RetiresSub;
      var q, r := ss[j - 1].queue, ss[j].queue;
      if q != [] && r == q[1..] {
        HeadNotLater(q);
        assert p != 0;
        assert r[p - 1].ticket == ticket;
      } else {
        assert r[p].ticket == ticket;
      }
    }
  }

  lemma QueueInOrder(cfg: Config, s: State)
    requires SpawnInv(cfg, s)
    ensures InOrder(s.queue)
    ensures forall q :: q in s.queue ==> q.ticket < s.received
  {
    forall q | q in s.queue
      ensures q.ticket < s.received
    {
      assert q.ticket in Waiting(s.queue);
      assert Places(s.rejected, Waiting(s.queue), Serving(s.running), s.finished, {}, q.ticket) >= 1;
    }
  }

  lemma {:induction false} WaitingIsOld(cfg: Config, ss: seq<State>, ms: seq<Message>, i: nat, j: nat, pos: nat)
    requires Run(cfg, ss, ms) && i <= j <= |ms| && pos < |ss[i].queue|
    ensures ss[i].queue[pos].ticket < ss[j].received
    decreases j
  {
    hide Next, SpawnInv, LifeInv;
    if i == j {
      RunKeepsInv(cfg, ss, ms, i);
      QueueInOrder(cfg, ss[i]);
    } else {
      WaitingIsOld(cfg, ss, ms, i, j - 1, pos);
      RunKeepsInv(cfg, ss, ms, j - 1);
      assert Stepped(cfg, ss[j - 1], ms[j - 1], ss[j]);
      QueueStep(cfg, ss[j - 1], ms[j - 1]);
    }
  }

  /**
   * Bounded waiting: once k + 1 live sub-agents have ended, the request that was at position k has
   * left the queue, whatever else arrived and whether or not the requests before it could be served.
   */
  lemma BoundedWaiting(cfg: Config, ss: seq<State>, ms: seq<Message>, i: nat, j: nat, pos: nat)
    requires Run(cfg, ss, ms) && i <= j <= |ms| && pos < |ss[i].queue|
    requires Retirements(ss, ms, i, j) > pos
    ensures ss[i].queue[pos].ticket !in Waiting(ss[j].queue)
  {
    if ss[i].queue[pos].ticket in Waiting(ss[j].queue) {
      MovesUp(cfg, ss, ms, i, j, pos);
      assert false;
    }
  }

  /** With limit 0 nothing ever waits, short of more requests than a machine word can count. */
  lemma {:induction false} UnlimitedNeverQueues(cfg: Config, ss: seq<State>, ms: seq<Message>, i: nat)
    requires Run(cfg, ss, ms) && i <= |ms| && cfg.maxConcurrent == 0 && ss[i].received <= 0xFFFF_FFFF_FFFF_FFFF
    ensures ss[i].queue == []
  {
    hide Next, SpawnInv, LifeInv, SubAgents;
    if i > 0 {
      RunKeepsInv(cfg, ss, ms, i - 1);
      assert Stepped(cfg, ss[i - 1], ms[i - 1], ss[i]);
      QueueStep(cfg, ss[i - 1], ms[i - 1]);
      UnlimitedNeverQueues(cfg, ss, ms, i - 1);
      RequestsConserved(cfg, ss[i - 1]);
      SlotsUsed(cfg, ss[i - 1]);
    }
  }

  lemma SlotsUsed(cfg: Config, s: State)
    requires SpawnInv(cfg, s)
    ensures |SubAgents(s.agents)| == |s.running|
    ensures |s.running| <= if cfg.maxConcurrent == 0 then 0xFFFF_FFFF_FFFF_FFFF else cfg.maxConcurrent
  {
    assert |s.running| == |s.running.Keys|;
  }

  /** Whatever arrives, no more sub-agents are live at a time than the configuration allows. */
  lemma RunWithinCap(cfg: Config, ss: seq<State>, ms: seq<Message>, i: nat)
    requires Run(cfg, ss, ms) && i <= |ms|
    ensures cfg.maxConcurrent != 0 ==> |SubAgents(ss[i].agents)| <= cfg.maxConcurrent
  {
    hide SpawnInv, LifeInv, SubAgents, Next;
    RunKeepsInv(cfg, ss, ms, i);
    SlotsUsed(cfg, ss[i]);
  }
}
