/**
 * The lifecycle events of main sessions (crates/visp-agent/src/orchestrator.rs): what is published
 * for a session, in which order, and how turns and their ends balance.
 */
module Lifecycle {
  import opened Collections
  import opened ActiveAgents
  import opened Orchestration
  import opened SpawnInvariants

  function About(id: Id): Published -> bool {
    (p: Published) => p.session == id
  }

  /** The events of one session, in order. */
  function OwnHooks(published: seq<Published>, id: Id): seq<Hook> {
    Map(Filter(published, About(id)), (p: Published) => p.hook)
  }

  function Prompts(hooks: seq<Hook>): nat {
    if hooks == [] then 0
    else Prompts(hooks[..|hooks| - 1]) + if hooks[|hooks| - 1].UserPromptSubmit? then 1 else 0
  }

  function Ends(hooks: seq<Hook>): nat {
    if hooks == [] then 0
    else Ends(hooks[..|hooks| - 1]) + if hooks[|hooks| - 1].Stop? || hooks[|hooks| - 1].StopFailure? then 1 else 0
  }

  ghost predicate LiveRoot(s: State, id: Id) {
    id in s.agents && s.agents[id].parent.None?
  }

  /** Nothing before the start; the start first, a prompt right after it, and never a second start. */
  ghost predicate WellStarted(hooks: seq<Hook>, started: bool) {
    if !started then hooks == []
    else
      && |hooks| >= 2 && hooks[0] == SessionStart && hooks[1] == UserPromptSubmit
      && forall i :: 1 <= i < |hooks| ==> hooks[i] != SessionStart
  }

  /** No more ends than prompts, and one prompt to spare while the turn is still registered. */
  ghost predicate Balanced(hooks: seq<Hook>, live: bool) {
    Ends(hooks) + (if live then 1 else 0) <= Prompts(hooks)
  }

  ghost predicate RunningIsLive(s: State) {
    forall id :: id in s.sessions && s.sessions[id].parent.None? && s.sessions[id].status == Running ==> LiveRoot(s, id)
  }

  ghost predicate TraceOk(s: State, id: Id) {
    WellStarted(OwnHooks(s.published, id), id in s.sources) && Balanced(OwnHooks(s.published, id), LiveRoot(s, id))
  }

  ghost predicate Traces(s: State) {
    forall id :: TraceOk(s, id)
  }

  ghost predicate LifeInv(s: State) {
    Agree(s) && RunningIsLive(s) && Traces(s)
  }

  lemma InitialLife()
    ensures LifeInv(INITIAL)
  {
    forall id ensures OwnHooks(INITIAL.published, id) == [] {
      assert Filter<Published>([], About(id)) == [];
    }
  }

  lemma PublishOwn(s: State, id: Id, hook: Hook, other: Id)
    ensures OwnHooks(Publish(s, id, hook).published, other) == OwnHooks(s.published, other) + if other == id then [hook]
      else []
  {
    FilterConcat(s.published, [Published(id, hook)], About(other));
    FilterSingle(Published(id, hook), About(other));
  }

  lemma CountLast(hooks: seq<Hook>, hook: Hook)
    ensures Prompts(hooks + [hook]) == Prompts(hooks) + if hook.UserPromptSubmit? then 1 else 0
    ensures Ends(hooks + [hook]) == Ends(hooks) + if hook.Stop? || hook.StopFailure? then 1 else 0
  {
    assert (hooks + [hook])[..|hooks|] == hooks;
  }

  // ---- A turn begins ----

  lemma BeginHooks(s: State, id: Id, name: string, other: Id)
    requires id in s.sessions
    ensures var before := OwnHooks(s.published, other);
            OwnHooks(BeginTurn(s, id, name).published, other) ==
              if other != id then before
              else before + (if id in s.sources then [] else [SessionStart]) + [UserPromptSubmit]
  {
    PublishOwn(s, id, SessionStart, other);
    PublishOwn(Publish(s, id, SessionStart), id, UserPromptSubmit, other);
    PublishOwn(s, id, UserPromptSubmit, other);
  }

  lemma BeginHooksOk(before: seq<Hook>, started: bool, live: bool)
    requires WellStarted(before, started) && Balanced(before, live)
    ensures var after := before + (if started then [] else [SessionStart]) + [UserPromptSubmit];
            WellStarted(after, true) && Balanced(after, true)
  {
    CountLast(before, SessionStart);
    CountLast(before + [SessionStart], UserPromptSubmit);
    CountLast(before, UserPromptSubmit);
    assert before + [] == before;
    hide Ends, Prompts;
  }

  lemma EndHooksOk(before: seq<Hook>, started: bool, hook: Hook)
    requires WellStarted(before, started) && Balanced(before, true) && (hook.Stop? || hook.StopFailure?)
    ensures WellStarted(before + [hook], started) && Balanced(before + [hook], false)
  {
    CountLast(before, hook);
  }

  lemma BeginShape(s: State, id: Id, name: string)
    requires id in s.sessions
    ensures var r := BeginTurn(s, id, name);
            && r.sources == s.sources + {id}
            && r.agents == s.agents[id := ActiveAgent(id, None, name, None, false)]
            && r.sessions == s.sessions[id := s.sessions[id].(status := Running, cancelled := false)]
  {
  }

  lemma BeginKeepsTraces(s: State, id: Id, name: string)
    requires Traces(s) && id in s.sessions
    ensures Traces(BeginTurn(s, id, name))
  {
    hide BeginTurn, OwnHooks, WellStarted, Balanced;
    var r := BeginTurn(s, id, name);
    BeginShape(s, id, name);
    forall other
      ensures TraceOk(r, other)
    {
      BeginHooks(s, id, name, other);
      assert TraceOk(s, other);
      if other == id {
        BeginHooksOk(OwnHooks(s.published, id), id in s.sources, LiveRoot(s, id));
      }
    }
  }

  lemma UserInputKeepsLife(s: State, id: Id, env: StartEnv)
    requires LifeInv(s)
    ensures LifeInv(HandleUserInput(s, id, env))
  {
    var r := HandleUserInput(s, id, env);
    if id in s.sessions && s.sessions[id].parent.None? {
      var s1 := ResetTerminal(s, id);
      SameTraces(s, s1);
      BeginKeepsTraces(s1, id, env.name);
      BeginKeepsSessions(s, id, env.name);
    }
    hide Traces;
  }

  lemma BeginKeepsSessions(s: State, id: Id, name: string)
    requires Agree(s) && RunningIsLive(s) && id in s.sessions && s.sessions[id].parent.None?
    ensures var s1 := ResetTerminal(s, id);
            Agree(s1) && RunningIsLive(s1) && Agree(BeginTurn(s1, id, name)) && RunningIsLive(BeginTurn(s1, id, name))
  {
    var s1 := ResetTerminal(s, id);
    hide BeginTurn;
    BeginShape(s1, id, name);
  }

  // ---- A turn ends ----

  lemma FinishShape(s: State, id: Id, status: Status, ok: bool, hook: Hook)
    ensures var r := FinishAgent(s, id, status, ok, hook);
            if Stale(s, id) then r == s
            else
              && r.agents == s.agents - {id} && r.sessions == SetStatus(s.sessions, id, status)
              && r.sources == s.sources
              && (r.published == s.published
                  || (s.agents[id].parent.None? && r.published == Publish(s, id, hook).published))
  {
    hide SetStatus, Retire;
    RetireShape(s, id, status);
    var f, r := FinishAgent(s, id, status, ok, hook), Retire(s, id, status);
    if !Stale(s, id) {
      if id in s.pending {
        assert f == Answer(r, s.pending[id], id, ok);
      } else if s.agents[id].parent.Some? {
        assert f == r;
      } else {
        assert f == Publish(r, id, hook);
      }
    }
  }

  lemma RetireShape(s: State, id: Id, status: Status)
    ensures var r := Retire(s, id, status);
            && r.agents == s.agents - {id} && r.sessions == SetStatus(s.sessions, id, status) && r.sources == s.sources
            && r.published == s.published
  {
    hide SetStatus;
  }

  lemma FinishKeepsLife(s: State, id: Id, status: Status, ok: bool, hook: Hook)
    requires LifeInv(s) && status != Running && (hook.Stop? || hook.StopFailure?)
    ensures LifeInv(FinishAgent(s, id, status, ok, hook))
  {
    hide FinishAgent, Traces;
    var r := FinishAgent(s, id, status, ok, hook);
    FinishShape(s, id, status, ok, hook);
    if !Stale(s, id) {
      FinishTraces(s, r, id, hook);
      FinishKeepsSessions(s, r, id, status);
    }
  }

  lemma FinishTraces(s: State, r: State, id: Id, hook: Hook)
    requires Traces(s) && id in s.agents && (hook.Stop? || hook.StopFailure?)
    requires r.agents == s.agents - {id} && r.sources == s.sources
    requires r.published == s.published || (s.agents[id].parent.None? && r.published == Publish(s, id, hook).published)
    ensures Traces(r)
  {
    forall other
      ensures TraceOk(r, other)
    {
      var before := OwnHooks(s.published, other);
      assert TraceOk(s, other);
      PublishOwn(s, id, hook, other);
      assert OwnHooks(r.published, other) == before
          || (other == id && LiveRoot(s, id) && OwnHooks(r.published, other) == before + [hook]);
      hide OwnHooks, WellStarted;
      if OwnHooks(r.published, other) == before + [hook] && other == id && LiveRoot(s, id) {
        EndHooksOk(before, id in s.sources, hook);
      }
    }
  }

  lemma FinishKeepsSessions(s: State, r: State, id: Id, status: Status)
    requires Agree(s) && RunningIsLive(s) && !Stale(s, id) && status != Running
    requires r.agents == s.agents - {id} && r.sessions == SetStatus(s.sessions, id, status)
    ensures Agree(r) && RunningIsLive(r)
  {
  }

  // ---- The other steps ----

  lemma SameTraces(s: State, r: State)
    requires Traces(s) && r.published == s.published && r.sources == s.sources
    requires forall id :: LiveRoot(r, id) <==> LiveRoot(s, id)
    ensures Traces(r)
  {
    hide OwnHooks, WellStarted, Balanced;
    forall id
      ensures TraceOk(r, id)
    {
      assert TraceOk(s, id);
    }
  }

  lemma SpawnKeepsLife(cfg: Config, s: State, req: Spawn, env: SpawnEnv)
    requires Forest(s) && LifeInv(s)
    ensures LifeInv(SpawnSub(cfg, s, req, env))
  {
    var r := SpawnSub(cfg, s, req, env);
    assert forall id :: id in s.agents || id in s.sessions ==> id in s.rank;
    hide SpawnSub, Ranked, Forest;
    SpawnShape(cfg, s, req, env);
    SameTraces(s, r);
    hide Traces;
    SpawnKeepsSessions(s, r, req, env.child);
  }

  lemma SpawnShape(cfg: Config, s: State, req: Spawn, env: SpawnEnv)
    requires Forest(s)
    ensures var r := SpawnSub(cfg, s, req, env);
            && r.published == s.published && r.sources == s.sources
            && (r.agents == s.agents || (env.child !in s.rank && r.sessions != s.sessions && r.agents ==
                  s.agents[env.child := ActiveAgent(env.child, Some(req.parent), req.kind, Some(req.callId), false)]))
            && (r.sessions == s.sessions || (env.child !in s.rank && exists status ::
                  r.sessions == s.sessions[env.child := Session(Some(req.parent), status, false)]))
  {
    NotLiveUnlessRanked(s, env.child);
    hide Forest, Ranked, Depth, SubAgents, ConcurrencyLimit, Launch, CreateChild, Reject, Enqueue;
    StepsOfSpawn(s, req, env.child);
  }

  lemma NotLiveUnlessRanked(s: State, id: Id)
    requires Forest(s)
    ensures Ranked(s.agents, s.rank) && (id in s.agents || id in s.sessions ==> id in s.rank)
  {
  }

  lemma SpawnKeepsSessions(s: State, r: State, req: Spawn, child: Id)
    requires Agree(s) && RunningIsLive(s) && forall id :: id in s.agents || id in s.sessions ==> id in s.rank
    requires r.agents == s.agents || (child !in s.rank && r.sessions != s.sessions && r.agents ==
               s.agents[child := ActiveAgent(child, Some(req.parent), req.kind, Some(req.callId), false)])
    requires r.sessions == s.sessions || (child !in s.rank && exists status ::
               r.sessions == s.sessions[child := Session(Some(req.parent), status, false)])
    ensures Agree(r) && RunningIsLive(r)
  {
  }

  lemma CancelKeepsLife(s: State, ids: set<Id>)
    requires LifeInv(s)
    ensures LifeInv(CancelAll(s, ids))
  {
    SameTraces(s, CancelAll(s, ids));
    hide Traces;
  }

  lemma SessionStepKeepsLife(cfg: Config, s: State, m: Message)
    requires Forest(s) && LifeInv(s) && (m.SessionCreated? || m.SessionForgotten? || m.LoopEnded?)
    ensures LifeInv(Next(cfg, s, m))
  {
    hide SubAgents, Receive, Drain, HandleUserInput, FinishAgent, CancelAll, Cancelled;
    var r := Next(cfg, s, m);
    assert r.published == s.published && r.sources == s.sources && r.agents == s.agents;
    SameTraces(s, r);
    hide Traces;
  }

  lemma NextKeepsLife(cfg: Config, s: State, m: Message)
    requires SpawnInv(cfg, s) && LifeInv(s)
    ensures LifeInv(Next(cfg, s, m))
  {
    assert Forest(s) && Ranked(s.agents, s.rank);
    hide SpawnInv, LifeInv, HandleUserInput, FinishAgent, CancelAll, Cancelled, Ranked, SpawnSub, Drain, SubAgents;
    match m
    case SpawnRequested(parent, callId, kind, wantsReply, env) =>
      ReceiveKeepsLife(cfg, s, parent, callId, kind, wantsReply, env);
    case AgentDone(id, env) =>
      FinishKeepsInv(cfg, s, id, Idle, true, Stop(false));
      FinishKeepsLife(s, id, Idle, true, Stop(false));
      DrainKeepsLife(cfg, HandleDone(s, id), env);
    case AgentError(id, byUser, env) =>
      var hook := if byUser then Stop(true) else StopFailure;
      FinishKeepsInv(cfg, s, id, Failed, false, hook);
      FinishKeepsLife(s, id, Failed, false, hook);
      DrainKeepsLife(cfg, HandleError(s, id, byUser), env);
    case AgentOutput(id) =>
    case UserInput(id, env) =>
      UserInputKeepsLife(s, id, env);
    case Cancel(id) =>
      CancelKeepsLife(s, Cancelled(s, id));
    case SessionCreated(id) =>
      SessionStepKeepsLife(cfg, s, m);
    case SessionForgotten(id) =>
      SessionStepKeepsLife(cfg, s, m);
    case LoopEnded(id, status) =>
      SessionStepKeepsLife(cfg, s, m);
  }

  lemma ReceiveKeepsLife(
    cfg: Config, s: State, parent: Id, callId: string, kind: string, wantsReply: bool, env: SpawnEnv)
    requires SpawnInv(cfg, s) && LifeInv(s)
    ensures LifeInv(Receive(cfg, s, parent, callId, kind, wantsReply, env))
  {
    hide SpawnSub, LifeInv;
    var s1 := s.(received := s.received + 1);
    SameLife(s, s1);
    SpawnKeepsLife(cfg, s1, Spawn(s.received, parent, callId, kind, wantsReply), env);
  }

  lemma SameLife(s: State, r: State)
    requires Forest(s) && LifeInv(s)
    requires r.agents == s.agents && r.sessions == s.sessions && r.rank == s.rank && r.births == s.births
    requires r.published == s.published && r.sources == s.sources
    ensures Forest(r) && LifeInv(r)
  {
    SameTraces(s, r);
  }

  lemma DrainKeepsLife(cfg: Config, s: State, env: SpawnEnv)
    requires SpawnInv(cfg, s) && LifeInv(s)
    ensures LifeInv(Drain(cfg, s, env))
  {
    if |SubAgents(s.agents)| < ConcurrencyLimit(cfg) && s.queue != [] {
      var s1 := s.(queue := s.queue[1..]);
      SameLife(s, s1);
      SpawnKeepsLife(cfg, s1, s.queue[0], env);
    }
  }

  /**
   * A running turn of a main session is registered, and no Done or Error that arrives late for the
   * session takes it down.
   */
  lemma RunningTurnSurvives(cfg: Config, s: State, id: Id, m: Message)
    requires SpawnInv(cfg, s) && LifeInv(s)
    requires id in s.sessions && s.sessions[id].parent.None? && s.sessions[id].status == Running
    requires m.AgentDone? || m.AgentError?
    ensures LiveRoot(s, id) && s.agents[id].parent.None?
    ensures var r := Next(cfg, s, m);
            && LiveRoot(r, id) && r.agents[id] == s.agents[id]
            && id in r.sessions && r.sessions[id] == s.sessions[id]
            && OwnHooks(r.published, id) == OwnHooks(s.published, id)
  {
    hide SpawnSub;
    var (f, env) := if m.AgentDone? then (HandleDone(s, m.id), m.env) else (HandleError(s, m.id, m.byUser), m.env);
    var hook := if m.AgentDone? then Stop(false) else if m.byUser then Stop(true) else StopFailure;
    FinishKeepsInv(cfg, s, m.id, if m.AgentDone? then Idle else Failed, m.AgentDone?, hook);
    FinishOther(s, m.id, if m.AgentDone? then Idle else Failed, m.AgentDone?, hook, id);
    DrainOther(cfg, f, env, id);
  }

  lemma FinishOther(s: State, id: Id, status: Status, ok: bool, hook: Hook, other: Id)
    requires other in s.sessions && other in s.agents && s.agents[other].parent.None? && IsRunning(s, other)
    ensures var r := FinishAgent(s, id, status, ok, hook);
            && other in r.agents && r.agents[other] == s.agents[other]
            && other in r.sessions && r.sessions[other] == s.sessions[other]
            && OwnHooks(r.published, other) == OwnHooks(s.published, other)
  {
    hide FinishAgent, OwnHooks;
    FinishShape(s, id, status, ok, hook);
    PublishOwn(s, id, hook, other);
  }

  lemma DrainOther(cfg: Config, s: State, env: SpawnEnv, other: Id)
    requires Forest(s) && other in s.sessions && other in s.agents
    ensures var r := Drain(cfg, s, env);
            && other in r.agents && r.agents[other] == s.agents[other]
            && other in r.sessions && r.sessions[other] == s.sessions[other]
            && r.published == s.published
  {
  }
}
