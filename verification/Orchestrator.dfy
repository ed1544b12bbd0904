/**
 * The handlers of the orchestrator (crates/visp-agent/src/orchestrator.rs), which update the registry
 * of live agents, the queue and the channel tables in place. Each is proved to carry out the step of
 * the state machine in module Orchestration, and `Serve` to produce one of its runs.
 */
module Handlers {
  import opened Collections
  import opened ActiveAgents
  import opened Orchestration
  import opened SpawnInvariants
  import opened Lifecycle
  import opened OrchestratorRuns
  import opened DepthBound

  /**
   * The session manager as the orchestrator uses it (crates/visp-core/src/session.rs): a child session
   * is created under a new id, only an idle session can start a loop, ending a loop sets the status it
   * is told, and a running loop can be cancelled. The store may fail to create or to start. Ids are
   * random in the source; one that was used before is refused here, where the source would return the
   * session that has it.
   */
  class SessionManager {
    var sessions: map<Id, Session>
    var rank: map<Id, nat>   // every id ever used, in order of creation
    var births: nat

    constructor ()
      ensures sessions == map[] && rank == map[] && births == 0
    {
      sessions, rank, births := map[], map[], 0;
    }

    method CreateSub(id: Id, parent: Id, granted: bool) returns (ok: bool)
      modifies this
      ensures ok == (granted && id !in old(rank))
      ensures sessions == if ok then old(sessions)[id := Session(Some(parent), Idle, false)] else old(sessions)
      ensures rank == if ok then old(rank)[id := old(births)] else old(rank)
      ensures births == if ok then old(births) + 1 else old(births)
    {
      ok := granted && id !in rank;
      if ok {
        sessions := sessions[id := Session(Some(parent), Idle, false)];
        rank, births := rank[id := births], births + 1;
      }
    }

    method StartLoop(id: Id, granted: bool) returns (ok: bool)
      modifies this`sessions
      ensures ok == (granted && id in old(sessions) && old(sessions)[id].status == Idle)
      ensures sessions == if ok then old(sessions)[id := old(sessions)[id].(status := Running, cancelled := false)]
        else old(sessions)
    {
      ok := granted && id in sessions && sessions[id].status == Idle;
      if ok {
        sessions := sessions[id := sessions[id].(status := Running, cancelled := false)];
      }
    }

    method FinishLoop(id: Id, status: Status)
      modifies this`sessions
      ensures sessions == SetStatus(old(sessions), id, status)
    {
      if id in sessions {
        sessions := sessions[id := sessions[id].(status := status)];
      }
    }

    method CancelAgent(id: Id)
      modifies this`sessions
      ensures sessions
           == map x | x in old(sessions) :: if x == id then old(sessions)[x].Interrupted() else old(sessions)[x]
    {
      if id in sessions && sessions[id].status == Running {
        sessions := sessions[id := sessions[id].(cancelled := true)];
      }
    }

    /** A client opens a main session. */
    method Create(id: Id)
      modifies this
      ensures sessions == if id in old(rank) then old(sessions) else old(sessions)[id := Session(None, Idle, false)]
      ensures rank == if id in old(rank) then old(rank) else old(rank)[id := old(births)]
      ensures births == if id in old(rank) then old(births) else old(births) + 1
    {
      if id !in rank {
        sessions := sessions[id := Session(None, Idle, false)];
        rank, births := rank[id := births], births + 1;
      }
    }

    /** A session that is no longer held in memory. */
    method Forget(id: Id)
      modifies this`sessions
      ensures sessions == old(sessions) - {id}
    {
      sessions := sessions - {id};
    }
  }

  // ---- Cancelling in pieces ----

  lemma CancelNothing(s: State)
    ensures CancelAll(s, {}) == s
  {
    assert CancelAll(s, {}).agents == s.agents && CancelAll(s, {}).sessions == s.sessions;
  }

  lemma CancelMore(s: State, done: set<Id>, more: set<Id>)
    ensures CancelAll(CancelAll(s, done), more) == CancelAll(s, done + more)
  {
    var a, b := CancelAll(CancelAll(s, done), more), CancelAll(s, done + more);
    assert a.agents == b.agents && a.sessions == b.sessions;
  }

  /** Cancelling changes no parent link. */
  lemma {:induction false} SameTree(agents: Agents, after: Agents, rank: map<Id, nat>, root: Id, id: Id)
    requires Ranked(agents, rank) && Ranked(after, rank) && agents.Keys == after.Keys
    requires forall x :: x in agents ==> agents[x].parent == after[x].parent
    ensures Under(agents, rank, root, id) == Under(after, rank, root, id)
    decreases Age(rank, id)
  {
    if id in agents && agents[id].parent.Some? {
      SameTree(agents, after, rank, root, agents[id].parent.value);
    }
  }

  lemma CancelKeepsTree(s: State, ids: set<Id>, root: Id)
    requires Ranked(s.agents, s.rank)
    ensures Ranked(CancelAll(s, ids).agents, s.rank)
    ensures Cancelled(CancelAll(s, ids), root) == Cancelled(s, root)
  {
    var r := CancelAll(s, ids);
    forall id
      ensures Under(s.agents, s.rank, root, id) == Under(r.agents, r.rank, root, id)
    {
      SameTree(s.agents, r.agents, s.rank, root, id);
    }
  }

  lemma CancelTwice(s: State, done: set<Id>, id: Id)
    requires Ranked(s.agents, s.rank) && id in s.agents
    ensures var r, ids := CancelAll(s, done), Cancelled(s, id);
            && Ranked(r.agents, r.rank) && Cancelled(r, id) == ids && id in ids && ids <= s.agents.Keys
            && CancelAll(r, ids) == CancelAll(s, done + ids)
            && Ranked(CancelAll(s, done + ids).agents, s.rank)
  {
    CancelKeepsTree(s, done, id);
    CancelMore(s, done, Cancelled(s, id));
  }

  lemma FinishKeepsRanked(s: State, id: Id, status: Status, ok: bool, hook: Hook)
    requires Ranked(s.agents, s.rank)
    ensures var r := FinishAgent(s, id, status, ok, hook); Ranked(r.agents, r.rank)
  {
    hide Ranked, FinishAgent, Retire;
    FinishChanges(s, id, status, ok, hook);
    RemoveKeepsRanked(s.agents, s.rank, id);
  }

  lemma RemoveKeepsRanked(agents: Agents, rank: map<Id, nat>, id: Id)
    requires Ranked(agents, rank)
    ensures Ranked(agents - {id}, rank)
  {
  }

  /** The agent and its live subtree, and their running loops, have their tokens cancelled; nothing else changes. */
  ghost predicate OnlySubtreeCancelled(s: State, id: Id, r: State)
    requires Ranked(s.agents, s.rank)
  {
    && r == s.(agents := r.agents, sessions := r.sessions)
    && r.agents.Keys == s.agents.Keys && r.sessions.Keys == s.sessions.Keys
    && (forall a :: a in s.agents ==>
          r.agents[a] == if a == id || Under(s.agents, s.rank, id, a) then s.agents[a].(cancelled := true)
            else s.agents[a])
    && (forall x :: x in s.sessions ==>
          r.sessions[x] == if (x == id || Under(s.agents, s.rank, id, x)) && s.sessions[x].status == Running
                           then s.sessions[x].(cancelled := true) else s.sessions[x])
  }

  lemma CancelReaches(s: State, id: Id)
    requires Ranked(s.agents, s.rank)
    ensures OnlySubtreeCancelled(s, id, CancelAll(s, Cancelled(s, id)))
  {
  }

  lemma CancelledIs(s: State, id: Id, children: seq<ActiveAgent>, done: set<Id>)
    requires Ranked(s.agents, s.rank) && done == {id} + Ids(children)
    requires forall x :: x in Ids(children) <==> Under(s.agents, s.rank, id, x)
    ensures done == Cancelled(s, id)
  {
    hide Ids;
    forall x
      ensures Under(s.agents, s.rank, id, x) ==> x in s.agents
    {
    }
  }

  lemma TreeAfterCancel(s: State, ids: set<Id>, root: Id)
    requires Ranked(s.agents, s.rank) && Ranked(CancelAll(s, ids).agents, s.rank)
    ensures forall x :: Under(CancelAll(s, ids).agents, s.rank, root, x) <==> Under(s.agents, s.rank, root, x)
  {
    var r := CancelAll(s, ids);
    forall x
      ensures Under(r.agents, s.rank, root, x) == Under(s.agents, s.rank, root, x)
    {
      SameTree(s.agents, r.agents, s.rank, root, x);
    }
  }

  lemma IdsNext(found: seq<ActiveAgent>, i: nat)
    requires i < |found|
    ensures Ids(found[..i + 1]) == Ids(found[..i]) + {found[i].session}
  {
    assert found[..i + 1] == found[..i] + [found[i]];
  }

  lemma HasOrder(cfg: Config, s: State)
    requires SpawnInv(cfg, s) && LifeInv(s)
    ensures Ranked(s.agents, s.rank) && Agree(s)
  {
  }

  class Orchestrator {
    const cfg: Config
    const activeAgents: ActiveAgentRegistry
    const sessionMgr: SessionManager
    var queuedSpawns: seq<Spawn>
    var subAgentHandles: set<Id>
    var pendingResponses: map<Id, nat>
    var sessionSources: set<Id>
    var published: seq<Published>
    var replies: seq<Reply>
    // history
    var received: nat
    ghost var rejected: set<nat>
    ghost var running: map<Id, nat>
    ghost var finished: set<nat>
    ghost var started: seq<nat>

    constructor (cfg: Config)
      ensures this.cfg == cfg && fresh(activeAgents) && fresh(sessionMgr)
      ensures Value() == INITIAL
    {
      this.cfg := cfg;
      activeAgents := new ActiveAgentRegistry();
      sessionMgr := new SessionManager();
      queuedSpawns, subAgentHandles, pendingResponses, sessionSources := [], {}, map[], {};
      published, replies, received := [], [], 0;
      rejected, running, finished, started := {}, map[], {}, [];
    }

    ghost function Value(): State
      reads this, activeAgents, sessionMgr
    {
      State(activeAgents.agents, sessionMgr.sessions, queuedSpawns, subAgentHandles, pendingResponses, sessionSources,
            published, replies, sessionMgr.rank, sessionMgr.births, received, rejected, running, finished, started)
    }

    ghost predicate Ordered()
      reads this, activeAgents, sessionMgr
    {
      Ranked(activeAgents.agents, sessionMgr.rank)
    }

    /** How many live agents have a parent; main agents do not count. */
    method ActiveSubagentCount() returns (count: nat)
      ensures count == |SubAgents(activeAgents.agents)|
    {
      var agents := activeAgents.agents;
      var todo := agents.Keys;
      count := 0;
      ghost var counted: set<Id> := {};
      while todo != {}
        invariant todo <= agents.Keys
        invariant counted == SubAgents(agents) - todo && count == |counted|
        decreases |todo|
      {
        var id :| id in todo;
        if agents[id].parent.Some? {
          count := count + 1;
          counted := counted + {id};
        }
        todo := todo - {id};
      }
      assert counted == SubAgents(agents);
    }

    /** Starts a child for a request, queues the request at the limit, or refuses it. */
    method SpawnSubAgent(req: Spawn, env: SpawnEnv)
      requires Ordered()
      modifies this, activeAgents, sessionMgr
      ensures Value() == SpawnSub(cfg, old(Value()), req, env)
    {
      var depth := activeAgents.ComputeDepth(req.parent, sessionMgr.rank);
      if depth >= cfg.maxDepth {
        rejected := rejected + {req.ticket};
        return;
      }
      var count := ActiveSubagentCount();
      if count >= ConcurrencyLimit(cfg) {
        queuedSpawns := queuedSpawns + [req];
        return;
      }
      if !env.known || req.parent !in sessionMgr.sessions {
        rejected := rejected + {req.ticket};
        return;
      }
      var child := env.child;
      var created := sessionMgr.CreateSub(child, req.parent, env.createOk);
      if !created {
        rejected := rejected + {req.ticket};
        return;
      }
      hide Ranked, SubAgents, Depth, Launch;
      StartChild(req, env);
    }

    /** Registers the new child and starts its loop; a child that does not get going is unregistered. */
    method StartChild(req: Spawn, env: SpawnEnv)
      requires env.child !in activeAgents.agents
      requires env.child in sessionMgr.sessions && sessionMgr.sessions[env.child].status == Idle
      modifies this, activeAgents, sessionMgr`sessions
      ensures var s := old(Value());
              var looping := s.(sessions :=
                s.sessions[env.child := s.sessions[env.child].(status := Running, cancelled := false)]);
              Value() == if !env.startOk then Reject(s, req)
                         else if !env.provider then Reject(looping, req)
                         else Launch(looping, req, env.child)
    {
      var child := env.child;
      activeAgents.Register(ActiveAgent(child, Some(req.parent), req.kind, Some(req.callId), false));
      var looping := sessionMgr.StartLoop(child, env.startOk);
      if !looping || !env.provider {
        var _ := activeAgents.Remove(child);
        assert activeAgents.agents == old(activeAgents.agents);
        rejected := rejected + {req.ticket};
        return;
      }
      subAgentHandles := subAgentHandles + {child};
      if req.wantsReply {
        pendingResponses := pendingResponses[child := req.ticket];
      }
      running := running[child := req.ticket];
      started := started + [req.ticket];
    }

    /** The next waiting request, if there is one and there is room for it. */
    method DrainQueuedSpawns(env: SpawnEnv)
      requires Ordered()
      modifies this, activeAgents, sessionMgr
      ensures Value() == Drain(cfg, old(Value()), env)
    {
      hide SpawnSub, SubAgents, Ranked;
      var count := ActiveSubagentCount();
      if count < ConcurrencyLimit(cfg) && queuedSpawns != [] {
        var next := queuedSpawns[0];
        queuedSpawns := queuedSpawns[1..];
        SpawnSubAgent(next, env);
      }
    }

    method SessionIsRunning(id: Id) returns (yes: bool)
      ensures yes == IsRunning(Value(), id)
    {
      yes := id in sessionMgr.sessions && sessionMgr.sessions[id].status == Running;
    }

    /** The clean-up shared by both ways of ending. */
    method Unregister(id: Id, status: Status)
      modifies this, activeAgents, sessionMgr`sessions
      ensures Value() == Retire(old(Value()), id, status).(pending := old(pendingResponses))
    {
      var _ := activeAgents.Remove(id);
      subAgentHandles := subAgentHandles - {id};
      sessionMgr.FinishLoop(id, status);
      finished := if id in running then finished + {running[id]} else finished;
      running := running - {id};
    }

    /** An agent has ended well: its channel is answered, or its session's Stop is published. */
    method OnDone(id: Id)
      modifies this, activeAgents, sessionMgr`sessions
      ensures Value() == HandleDone(old(Value()), id)
    {
      if id !in activeAgents.agents {
        return;
      }
      var parent := activeAgents.agents[id].parent;
      var busy := SessionIsRunning(id);
      if parent.None? && busy {
        return;
      }
      Unregister(id, Idle);
      if id in pendingResponses {
        var channel := pendingResponses[id];
        pendingResponses := pendingResponses - {id};
        replies := replies + [Reply(channel, id, true)];
        return;
      }
      assert pendingResponses - {id} == pendingResponses;
      if parent.None? {
        published := published + [Published(id, Stop(false))];
      }
    }

    /** An agent has failed or was cancelled. */
    method OnAgentError(id: Id, byUser: bool)
      modifies this, activeAgents, sessionMgr`sessions
      ensures Value() == HandleError(old(Value()), id, byUser)
    {
      if id !in activeAgents.agents {
        return;
      }
      var parent := activeAgents.agents[id].parent;
      var busy := SessionIsRunning(id);
      if parent.None? && busy {
        return;
      }
      Unregister(id, Failed);
      if id in pendingResponses {
        var channel := pendingResponses[id];
        pendingResponses := pendingResponses - {id};
        replies := replies + [Reply(channel, id, false)];
        return;
      }
      assert pendingResponses - {id} == pendingResponses;
      if parent.Some? {
        return;
      }
      if byUser {
        published := published + [Published(id, Stop(true))];
      } else {
        published := published + [Published(id, StopFailure)];
      }
    }

    /** Starts a turn of a main session, if its status lets it. */
    method StartMainAgent(id: Id, env: StartEnv)
      modifies this, activeAgents, sessionMgr`sessions
      ensures id in old(sessionMgr.sessions) ==> Value() == StartMain(old(Value()), id, env)
      ensures id !in old(sessionMgr.sessions) ==> Value() == old(Value())
    {
      if id !in sessionMgr.sessions || !env.known || !env.provider {
        return;
      }
      var looping := sessionMgr.StartLoop(id, env.startOk);
      if !looping {
        return;
      }
      activeAgents.Register(ActiveAgent(id, None, env.name, None, false));
      if id !in sessionSources {
        published := published + [Published(id, SessionStart)];
      }
      sessionSources := sessionSources + {id};
      published := published + [Published(id, UserPromptSubmit)];
    }

    /** User input starts a turn; a session left in a final status is made idle first. */
    method OnUserInput(id: Id, env: StartEnv)
      modifies this, activeAgents, sessionMgr`sessions
      ensures Value() == HandleUserInput(old(Value()), id, env)
    {
      hide BeginTurn;
      if id in sessionMgr.sessions && sessionMgr.sessions[id].parent.None? {
        var status := sessionMgr.sessions[id].status;
        if status == Completed || status == Failed {
          sessionMgr.FinishLoop(id, Idle);
        }
        StartMainAgent(id, env);
      }
    }

    /** Both cancellation tokens of one agent. */
    method CancelTokens(id: Id)
      modifies activeAgents, sessionMgr`sessions
      ensures Value() == CancelAll(old(Value()), {id})
    {
      if id in activeAgents.agents {
        activeAgents.CancelToken(id);
      }
      sessionMgr.CancelAgent(id);
      assert activeAgents.agents == CancelAll(old(Value()), {id}).agents;
      assert sessionMgr.sessions == CancelAll(old(Value()), {id}).sessions;
    }

    /** Cancels an agent and its live descendants. */
    method CancelAgent(id: Id)
      requires Ordered()
      modifies activeAgents, sessionMgr`sessions
      ensures Value() == CancelAll(old(Value()), Cancelled(old(Value()), id))
      ensures OnlySubtreeCancelled(old(Value()), id, Value())
    {
      hide CancelAll, Ranked, Under, Cancelled, OnlySubtreeCancelled;
      ghost var s := Value();
      CancelTokens(id);
      CancelKeepsTree(s, {id}, id);
      TreeAfterCancel(s, {id}, id);
      var children := activeAgents.DescendantsOf(id, sessionMgr.rank);
      ghost var done: set<Id> := {id};
      for i := 0 to |children|
        invariant Value() == CancelAll(s, done)
        invariant done == {id} + Ids(children[..i])
      {
        CancelTokens(children[i].session);
        CancelMore(s, done, {children[i].session});
        done := done + {children[i].session};
        IdsNext(children, i);
      }
      assert children[..|children|] == children;
      CancelledIs(s, id, children, done);
      CancelReaches(s, id);
    }

    /** Shutting down cancels every live agent, its descendants and their loops. */
    method Shutdown()
      requires Ordered()
      modifies activeAgents, sessionMgr`sessions
      ensures Value() == CancelAll(old(Value()), old(activeAgents.agents).Keys)
    {
      hide CancelAll, Ranked, Under, Cancelled;
      ghost var s := Value();
      var todo := activeAgents.agents.Keys;
      ghost var done: set<Id> := {};
      CancelNothing(s);
      while todo != {}
        invariant Ordered() && Value() == CancelAll(s, done)
        invariant todo <= s.agents.Keys && done <= s.agents.Keys <= done + todo
        decreases |todo|
      {
        var id :| id in todo;
        CancelTwice(s, done, id);
        CancelAgent(id);
        done := done + Cancelled(s, id);
        todo := todo - {id};
      }
      assert done == s.agents.Keys;
    }

    /** Messages from agents: spawn requests, ends of turns, and output that goes elsewhere. */
    method HandleAgentMessage(m: Message)
      requires m.SpawnRequested? || m.AgentDone? || m.AgentError? || m.AgentOutput?
      requires Ordered()
      modifies this, activeAgents, sessionMgr
      ensures Value() == Next(cfg, old(Value()), m)
    {
      hide SpawnSub, FinishAgent, Drain, Ranked;
      ghost var s := Value();
      match m
      case SpawnRequested(parent, callId, kind, wantsReply, env) =>
        var ticket := received;
        received := received + 1;
        SpawnSubAgent(Spawn(ticket, parent, callId, kind, wantsReply), env);
      case AgentDone(id, env) =>
        FinishKeepsRanked(s, id, Idle, true, Stop(false));
        OnDone(id);
        DrainQueuedSpawns(env);
      case AgentError(id, byUser, env) =>
        FinishKeepsRanked(s, id, Failed, false, if byUser then Stop(true) else StopFailure);
        OnAgentError(id, byUser);
        DrainQueuedSpawns(env);
      case AgentOutput(id) =>
    }

    /** Messages from clients. */
    method HandleClientMessage(m: Message)
      requires m.UserInput? || m.Cancel?
      requires Ordered()
      modifies this, activeAgents, sessionMgr`sessions
      ensures Value() == Next(cfg, old(Value()), m)
    {
      hide HandleUserInput, CancelAll, Cancelled, Ranked;
      match m
      case UserInput(id, env) =>
        OnUserInput(id, env);
      case Cancel(id) =>
        CancelAgent(id);
    }

    /** What other parts of the daemon do to the sessions. */
    method ChangeSession(m: Message)
      requires m.SessionCreated? || m.SessionForgotten? || m.LoopEnded?
      requires Ordered()
      modifies sessionMgr
      ensures Value() == Next(cfg, old(Value()), m)
    {
      hide Ranked, SpawnSub, FinishAgent, Drain, HandleUserInput, CancelAll, Cancelled;
      match m
      case SessionCreated(id) =>
        sessionMgr.Create(id);
      case SessionForgotten(id) =>
        sessionMgr.Forget(id);
      case LoopEnded(id, status) =>
        if status != Running {
          sessionMgr.FinishLoop(id, status);
        }
    }

    /** One message from an agent or a client, or one change of a session from outside. */
    method Handle(m: Message)
      requires SpawnInv(cfg, Value()) && LifeInv(Value())
      modifies this, activeAgents, sessionMgr
      ensures Stepped(cfg, old(Value()), m, Value())
      ensures SpawnInv(cfg, Value()) && LifeInv(Value())
    {
      ghost var s := Value();
      HasOrder(cfg, s);
      NextKeepsInv(cfg, s, m);
      NextKeepsLife(cfg, s, m);
      hide SpawnInv, LifeInv, Ranked, Next;
      if m.SpawnRequested? || m.AgentDone? || m.AgentError? || m.AgentOutput? {
        HandleAgentMessage(m);
      } else if m.UserInput? || m.Cancel? {
        HandleClientMessage(m);
      } else {
        ChangeSession(m);
      }
    }

    /** The main loop: whatever arrives, in whatever order, the states passed through form a run. */
    method Serve(ms: seq<Message>) returns (ghost ss: seq<State>)
      requires Value() == INITIAL
      modifies this, activeAgents, sessionMgr
      ensures Run(cfg, ss, ms) && ss[|ms|] == Value()
    {
      InitialInv(cfg);
      InitialLife();
      ss := [Value()];
      hide SpawnInv, LifeInv, Stepped;
      for i := 0 to |ms|
        invariant |ss| == i + 1 && ss[0] == INITIAL && ss[i] == Value()
        invariant SpawnInv(cfg, Value()) && LifeInv(Value())
        invariant forall k :: 0 <= k < i ==> Stepped(cfg, ss[k], ms[k], ss[k + 1])
      {
        Handle(ms[i]);
        ss := ss + [Value()];
      }
    }
  }
}
