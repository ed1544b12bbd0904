/**
 * What each message to the orchestrator comes to (crates/visp-agent/src/orchestrator.rs), field by
 * field: what becomes of a request, what an ending leaves behind, and which hooks and replies go out.
 */
module Outcomes {
  import opened Collections
  import opened ActiveAgents
  import opened Orchestration
  import opened SpawnInvariants
  import opened OrchestratorRuns
  import Lifecycle

  // ---- Requests ----

  /** The steps from a request with room for it to a running child. */
  predicate Fails(s: State, req: Spawn, env: SpawnEnv) {
    || !env.known || req.parent !in s.sessions || !env.createOk || env.child in s.rank
    || !env.startOk || !env.provider
  }

  /** The request is refused; a child session that was made stays, idle or, without a provider, running. */
  ghost predicate RefusedAs(s: State, req: Spawn, env: SpawnEnv, r: State) {
    && r.rejected == s.rejected + {req.ticket}
    && r.agents == s.agents && r.queue == s.queue && r.handles == s.handles && r.pending == s.pending
    && r.running == s.running && r.finished == s.finished && r.started == s.started
    && r.sessions == if !env.known || req.parent !in s.sessions || !env.createOk || env.child in s.rank then s.sessions
                     else s.sessions[env.child :=
                       Session(Some(req.parent), if env.startOk then Running else Idle, false)]
  }

  /** The child is live under its parent and runs, and its reply goes where the request came from. */
  ghost predicate StartedAs(s: State, req: Spawn, env: SpawnEnv, r: State) {
    && r.agents == s.agents[env.child := ActiveAgent(env.child, Some(req.parent), req.kind, Some(req.callId), false)]
    && r.sessions == s.sessions[env.child := Session(Some(req.parent), Running, false)]
    && r.handles == s.handles + {env.child}
    && r.pending == (if req.wantsReply then s.pending[env.child := req.ticket] else s.pending)
    && r.running == s.running[env.child := req.ticket]
    && r.started == s.started + [req.ticket]
    && r.queue == s.queue && r.rejected == s.rejected && r.finished == s.finished
  }

  /**
   * A request from an agent at the depth limit is refused. Otherwise, with as many sub-agents live as
   * the configuration allows it is queued, and below that it starts unless one of the steps fails.
   */
  ghost predicate Decided(cfg: Config, s: State, req: Spawn, env: SpawnEnv, r: State)
    requires Ranked(s.agents, s.rank)
  {
    var live := |set id | id in s.agents && s.agents[id].parent.Some?|;
    var full := if cfg.maxConcurrent == 0 then live >= 0xFFFF_FFFF_FFFF_FFFF else live >= cfg.maxConcurrent;
    && r.published == s.published && r.replies == s.replies && r.received == s.received && r.sources == s.sources
    && if Depth(s.agents, s.rank, req.parent) >= cfg.maxDepth then r == s.(rejected := s.rejected + {req.ticket})
       else if full then r == s.(queue := s.queue + [req])
       else if Fails(s, req, env) then RefusedAs(s, req, env, r)
       else StartedAs(s, req, env, r)
  }

  lemma SpawnDecided(cfg: Config, s: State, req: Spawn, env: SpawnEnv)
    requires Ranked(s.agents, s.rank)
    ensures Decided(cfg, s, req, env, SpawnSub(cfg, s, req, env))
  {
    hide Ranked, Depth, RefusedAs, StartedAs, CreateChild, Launch, Reject;
    assert SubAgents(s.agents) == set id | id in s.agents && s.agents[id].parent.Some?;
    hide SubAgents;
    if Fails(s, req, env) {
      FailDecided(s, req, env);
    }
    StartDecided(s, req, env);
    RejectIs(s, req);
  }

  lemma RejectIs(s: State, req: Spawn)
    ensures Reject(s, req) == s.(rejected := s.rejected + {req.ticket})
  {
  }

  /** The three ways in which a spawn with room for it is refused. */
  lemma FailDecided(s: State, req: Spawn, env: SpawnEnv)
    requires Fails(s, req, env)
    ensures var unmade := !env.known || req.parent !in s.sessions || !env.createOk || env.child in s.rank;
            var r := if unmade then Reject(s, req)
                     else if !env.startOk then Reject(CreateChild(s, req, env.child, Idle), req)
                     else Reject(CreateChild(s, req, env.child, Running), req);
            && RefusedAs(s, req, env, r)
            && r.published == s.published && r.replies == s.replies
            && r.received == s.received && r.sources == s.sources
  {
  }

  lemma StartDecided(s: State, req: Spawn, env: SpawnEnv)
    ensures var r := Launch(CreateChild(s, req, env.child, Running), req, env.child);
            && StartedAs(s, req, env, r)
            && r.published == s.published && r.replies == s.replies
            && r.received == s.received && r.sources == s.sources
  {
  }

  /** A new request has the next ticket and is decided at once. */
  lemma RequestOutcome(
    cfg: Config, s: State, parent: Id, callId: string, kind: string, wantsReply: bool, env: SpawnEnv)
    requires Ranked(s.agents, s.rank)
    ensures Decided(cfg, s.(received := s.received + 1), Spawn(s.received, parent, callId, kind, wantsReply), env,
                    Next(cfg, s, SpawnRequested(parent, callId, kind, wantsReply, env)))
  {
    hide Decided, SpawnSub, Ranked;
    SpawnDecided(cfg, s.(received := s.received + 1), Spawn(s.received, parent, callId, kind, wantsReply), env);
  }

  // ---- Endings ----

  /** The message is about a live agent, and not about an older turn of a main session that runs again. */
  predicate Current(s: State, id: Id) {
    id in s.agents && !(s.agents[id].parent.None? && id in s.sessions && s.sessions[id].status == Running)
  }

  /**
   * A current ending takes the agent away and ends its session and its request; a sub-agent's outcome
   * goes to the channel of its request, if it has one, a main agent's is published.
   */
  ghost predicate EndedAs(s: State, id: Id, status: Status, ok: bool, hook: Hook, r: State) {
    if !Current(s, id) then r == s
    else
      r == s.(agents := s.agents - {id}, handles := s.handles - {id}, pending := s.pending - {id},
              running := s.running - {id},
              sessions := if id in s.sessions then s.sessions[id := s.sessions[id].(status := status)] else s.sessions,
              finished := s.finished + (if id in s.running then {s.running[id]} else {}),
              replies := s.replies + (if id in s.pending then [Reply(s.pending[id], id, ok)] else []),
              published := s.published
                           + if s.agents[id].parent.None? && id !in s.pending then [Published(id, hook)] else [])
  }

  /** Then one waiting request is decided, if there is one and room for it. */
  ghost predicate TakenNext(cfg: Config, s: State, env: SpawnEnv, r: State)
    requires Ranked(s.agents, s.rank)
  {
    var live := |set id | id in s.agents && s.agents[id].parent.Some?|;
    var full := if cfg.maxConcurrent == 0 then live >= 0xFFFF_FFFF_FFFF_FFFF else live >= cfg.maxConcurrent;
    if s.queue == [] || full then r == s else Decided(cfg, s.(queue := s.queue[1..]), s.queue[0], env, r)
  }

  lemma FinishEnds(s: State, id: Id, status: Status, ok: bool, hook: Hook)
    ensures EndedAs(s, id, status, ok, hook, FinishAgent(s, id, status, ok, hook))
  {
    CurrentIff(s, id);
    hide Stale, Current;
    if Current(s, id) {
      RetireFields(s, id, status);
      hide Retire;
      assert s.replies + [] == s.replies && s.published + [] == s.published;
    }
  }

  lemma CurrentIff(s: State, id: Id)
    ensures Current(s, id) <==> !Stale(s, id)
    ensures Current(s, id) ==> id in s.agents
  {
  }

  lemma RetireFields(s: State, id: Id, status: Status)
    ensures Retire(s, id, status)
         == s.(agents := s.agents - {id}, handles := s.handles - {id}, pending := s.pending - {id},
               running := s.running - {id},
               sessions := if id in s.sessions then s.sessions[id := s.sessions[id].(status := status)] else s.sessions,
               finished := s.finished + (if id in s.running then {s.running[id]} else {}))
  {
    assert s.finished + {} == s.finished;
  }

  lemma EndedRanked(s: State, id: Id, status: Status, ok: bool, hook: Hook, r: State)
    requires EndedAs(s, id, status, ok, hook, r) && Ranked(s.agents, s.rank)
    ensures Ranked(r.agents, r.rank)
  {
  }

  lemma DrainTakes(cfg: Config, s: State, env: SpawnEnv)
    requires Ranked(s.agents, s.rank)
    ensures TakenNext(cfg, s, env, Drain(cfg, s, env))
  {
    assert SubAgents(s.agents) == set id | id in s.agents && s.agents[id].parent.Some?;
    hide Decided, SpawnSub, Ranked, SubAgents;
    if s.queue != [] {
      SpawnDecided(cfg, s.(queue := s.queue[1..]), s.queue[0], env);
    }
  }

  /** A Done leaves the session idle, answers with success and publishes a plain stop. */
  lemma DoneOutcome(cfg: Config, s: State, id: Id, env: SpawnEnv) returns (m: State)
    requires Ranked(s.agents, s.rank)
    ensures EndedAs(s, id, Idle, true, Stop(false), m) && Ranked(m.agents, m.rank)
    ensures TakenNext(cfg, m, env, Next(cfg, s, AgentDone(id, env)))
  {
    m := HandleDone(s, id);
    FinishEnds(s, id, Idle, true, Stop(false));
    EndedRanked(s, id, Idle, true, Stop(false), m);
    hide EndedAs, TakenNext, Drain, Ranked;
    DrainTakes(cfg, m, env);
  }

  /**
   * An Error leaves the session failed, answers with failure and publishes a cancelled stop if the
   * user cancelled, and a failure otherwise.
   */
  lemma ErrorOutcome(cfg: Config, s: State, id: Id, byUser: bool, env: SpawnEnv) returns (m: State)
    requires Ranked(s.agents, s.rank)
    ensures EndedAs(s, id, Failed, false, if byUser then Stop(true) else StopFailure, m) && Ranked(m.agents, m.rank)
    ensures TakenNext(cfg, m, env, Next(cfg, s, AgentError(id, byUser, env)))
  {
    m := HandleError(s, id, byUser);
    FinishEnds(s, id, Failed, false, if byUser then Stop(true) else StopFailure);
    EndedRanked(s, id, Failed, false, if byUser then Stop(true) else StopFailure, m);
    hide EndedAs, TakenNext, Drain, Ranked;
    DrainTakes(cfg, m, env);
  }

  // ---- Turns of main agents ----

  /** A main session that does not run, with an agent, a provider and a loop that starts. */
  predicate Begins(s: State, id: Id, env: StartEnv) {
    && id in s.sessions && s.sessions[id].parent.None? && s.sessions[id].status != Running
    && env.known && env.provider && env.startOk
  }

  /**
   * User input starts a turn in a main session unless it runs or a step fails: the session runs with a
   * fresh token, its main agent is live, and its start, if it is the first, and the prompt are published.
   * If it does not start, a final status has still become idle.
   */
  lemma InputOutcome(cfg: Config, s: State, id: Id, env: StartEnv)
    requires Ranked(s.agents, s.rank)
    ensures var r := Next(cfg, s, UserInput(id, env));
            if Begins(s, id, env) then
              r == s.(sessions := s.sessions[id := Session(None, Running, false)],
                      agents := s.agents[id := ActiveAgent(id, None, env.name, None, false)],
                      sources := s.sources + {id},
                      published := s.published + (if id in s.sources then [] else [Published(id, SessionStart)])
                                   + [Published(id, UserPromptSubmit)])
            else if id in s.sessions && s.sessions[id].parent.None? && s.sessions[id].status != Running then
              r == s.(sessions := s.sessions[id := s.sessions[id].(status := Idle)])
            else r == s
  {
    assert id in s.sessions ==> s.sessions == s.sessions[id := s.sessions[id]];
    assert s.published + [] == s.published;
  }

  // ---- What goes out over a run ----

  /** The hooks a message gives rise to. */
  function HooksFor(s: State, m: Message): seq<Published> {
    match m
    case AgentDone(id, _) => if Current(s, id) && s.agents[id].parent.None? then [Published(id, Stop(false))] else []
    case AgentError(id, byUser, _) =>
      if !Current(s, id) || s.agents[id].parent.Some? then []
      else if byUser then [Published(id, Stop(true))]
      else [Published(id, StopFailure)]
    case UserInput(id, env) =>
      if !Begins(s, id, env) then []
      else if id in s.sources then [Published(id, UserPromptSubmit)]
      else [Published(id, SessionStart), Published(id, UserPromptSubmit)]
    case _ => []
  }

  /** The replies a message gives rise to: the outcome of a sub-agent whose request came with a channel. */
  function RepliesFor(s: State, m: Message): seq<Reply> {
    match m
    case AgentDone(id, _) => if Current(s, id) && id in s.pending then [Reply(s.pending[id], id, true)] else []
    case AgentError(id, _, _) => if Current(s, id) && id in s.pending then [Reply(s.pending[id], id, false)] else []
    case _ => []
  }

  lemma DecidedSilently(cfg: Config, s: State, env: SpawnEnv, r: State)
    requires Ranked(s.agents, s.rank) && TakenNext(cfg, s, env, r)
    ensures r.published == s.published && r.replies == s.replies
  {
    hide RefusedAs, StartedAs, Depth, Fails;
  }

  lemma EndedOut(s: State, id: Id, status: Status, ok: bool, hook: Hook, r: State)
    requires EndedAs(s, id, status, ok, hook, r)
    ensures r.published == s.published
                           + if Current(s, id) && s.agents[id].parent.None? && id !in s.pending
                             then [Published(id, hook)] else []
    ensures r.replies == s.replies
                         + if Current(s, id) && id in s.pending then [Reply(s.pending[id], id, ok)] else []
  {
    assert s.published + [] == s.published && s.replies + [] == s.replies;
  }

  lemma OnlySubsPending(cfg: Config, s: State, id: Id)
    requires SpawnInv(cfg, s) && id in s.pending && id in s.agents
    ensures s.agents[id].parent.Some?
  {
    assert id in SubAgents(s.agents);
  }

  /** Every step publishes and answers exactly what its message gives rise to. */
  lemma StepSends(cfg: Config, s: State, m: Message)
    requires SpawnInv(cfg, s) && Ranked(s.agents, s.rank)
    ensures Next(cfg, s, m).published == s.published + HooksFor(s, m)
    ensures Next(cfg, s, m).replies == s.replies + RepliesFor(s, m)
  {
    hide SpawnInv, EndedAs, TakenNext, Decided, Current, Begins, Cancelled, Receive, Drain, HandleUserInput, Ranked;
    assert s.published + [] == s.published && s.replies + [] == s.replies;
    match m
    case SpawnRequested(parent, callId, kind, wantsReply, env) =>
      RequestSilent(cfg, s, parent, callId, kind, wantsReply, env);
    case AgentDone(id, env) =>
      if id in s.pending && id in s.agents {
        OnlySubsPending(cfg, s, id);
      }
      CurrentIff(s, id);
      var mid := DoneOutcome(cfg, s, id, env);
      EndedOut(s, id, Idle, true, Stop(false), mid);
      DecidedSilently(cfg, mid, env, Next(cfg, s, m));
    case AgentError(id, byUser, env) =>
      if id in s.pending && id in s.agents {
        OnlySubsPending(cfg, s, id);
      }
      CurrentIff(s, id);
      var mid := ErrorOutcome(cfg, s, id, byUser, env);
      EndedOut(s, id, Failed, false, if byUser then Stop(true) else StopFailure, mid);
      DecidedSilently(cfg, mid, env, Next(cfg, s, m));
    case UserInput(id, env) =>
      InputSends(cfg, s, id, env);
    case _ =>
  }

  lemma InputSends(cfg: Config, s: State, id: Id, env: StartEnv)
    requires Ranked(s.agents, s.rank)
    ensures var r := Next(cfg, s, UserInput(id, env));
            r.published == s.published + HooksFor(s, UserInput(id, env)) && r.replies == s.replies
  {
    InputOutcome(cfg, s, id, env);
    hide Next, Begins;
    assert [Published(id, SessionStart)] + [Published(id, UserPromptSubmit)]
        == [Published(id, SessionStart), Published(id, UserPromptSubmit)];
    assert s.published + [] == s.published;
  }

  lemma RequestSilent(
    cfg: Config, s: State, parent: Id, callId: string, kind: string, wantsReply: bool, env: SpawnEnv)
    requires Ranked(s.agents, s.rank)
    ensures var r := Next(cfg, s, SpawnRequested(parent, callId, kind, wantsReply, env));
            r.published == s.published && r.replies == s.replies
  {
    RequestOutcome(cfg, s, parent, callId, kind, wantsReply, env);
    hide Next, RefusedAs, StartedAs, Depth, Fails;
  }

  function HooksOf(ss: seq<State>, ms: seq<Message>, i: nat): seq<Published>
    requires i <= |ms| < |ss|
  {
    if i == 0 then [] else HooksOf(ss, ms, i - 1) + HooksFor(ss[i - 1], ms[i - 1])
  }

  function RepliesOf(ss: seq<State>, ms: seq<Message>, i: nat): seq<Reply>
    requires i <= |ms| < |ss|
  {
    if i == 0 then [] else RepliesOf(ss, ms, i - 1) + RepliesFor(ss[i - 1], ms[i - 1])
  }

  /** Over a whole run nothing else goes out, and everything in the order of the messages. */
  lemma {:induction false} RunSends(cfg: Config, ss: seq<State>, ms: seq<Message>, i: nat)
    requires Run(cfg, ss, ms) && i <= |ms|
    ensures ss[i].published == HooksOf(ss, ms, i) && ss[i].replies == RepliesOf(ss, ms, i)
  {
    hide SpawnInv, Lifecycle.LifeInv, Next, HooksFor, RepliesFor;
    if i > 0 {
      RunSends(cfg, ss, ms, i - 1);
      RunKeepsInv(cfg, ss, ms, i - 1);
      assert Stepped(cfg, ss[i - 1], ms[i - 1], ss[i]);
      StepSends(cfg, ss[i - 1], ms[i - 1]);
    }
  }
}
