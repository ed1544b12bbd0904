/**
 * The orchestrator as a state machine (crates/visp-agent/src/orchestrator.rs): what each message does
 * to the live agents, the sessions, the queue of waiting spawns and the response channels. Module
 * Handlers holds the handlers that update this state in place.
 *
 * The history part of the state records what became of every spawn request. A request is named by
 * its ticket, the number of requests received before it, which also names its response channel.
 */
module Orchestration {
  import opened Collections
  import opened ActiveAgents

  const USIZE_MAX: nat := 0xFFFF_FFFF_FFFF_FFFF

  datatype Config = Config(maxDepth: nat, maxConcurrent: nat)

  datatype Status = Idle | Running | Completed | Failed

  /** A session as the session manager holds it; `cancelled` is the token of its current or last loop. */
  datatype Session = Session(parent: Option<Id>, status: Status, cancelled: bool) {
    /** Only a running loop has a token to cancel. */
    function Interrupted(): Session {
      if status == Running then this.(cancelled := true) else this
    }
  }

  datatype Spawn = Spawn(ticket: nat, parent: Id, callId: string, kind: string, wantsReply: bool)

  datatype Hook = SessionStart | UserPromptSubmit | Stop(cancelled: bool) | StopFailure

  datatype Published = Published(session: Id, hook: Hook)

  datatype Reply = Reply(ticket: nat, child: Id, ok: bool)

  datatype State = State(
    agents: Agents,
    sessions: map<Id, Session>,
    queue: seq<Spawn>,
    handles: set<Id>,
    pending: map<Id, nat>,        // child session to the channel its request came with
    sources: set<Id>,             // sessions whose start has been published
    published: seq<Published>,
    replies: seq<Reply>,          // what was sent into response channels
    // history
    rank: map<Id, nat>,           // every session ever created, in order of creation
    births: nat,
    received: nat,
    rejected: set<nat>,
    running: map<Id, nat>,        // child session to the ticket it serves
    finished: set<nat>,
    started: seq<nat>)

  const INITIAL := State(map[], map[], [], {}, map[], {}, [], [], map[], 0, 0, {}, map[], {}, [])

  /** What the surroundings answer while a spawn is carried out. */
  datatype SpawnEnv = SpawnEnv(known: bool, child: Id, createOk: bool, startOk: bool, provider: bool)

  datatype StartEnv = StartEnv(known: bool, name: string, provider: bool, startOk: bool)

  /** A message to the orchestrator, or a change its surroundings make to a session. */
  datatype Message =
    | SpawnRequested(parent: Id, callId: string, kind: string, wantsReply: bool, env: SpawnEnv)
    | AgentDone(id: Id, env: SpawnEnv)
    | AgentError(id: Id, byUser: bool, env: SpawnEnv)
    | AgentOutput(id: Id)
    | UserInput(id: Id, start: StartEnv)
    | Cancel(id: Id)
    | SessionCreated(id: Id)
    | SessionForgotten(id: Id)
    | LoopEnded(id: Id, status: Status)

  function SubAgents(agents: Agents): set<Id> {
    set id | id in agents && agents[id].parent.Some?
  }

  /** 0 means unlimited. */
  function ConcurrencyLimit(cfg: Config): nat {
    if cfg.maxConcurrent == 0 then USIZE_MAX else cfg.maxConcurrent
  }

  // ---- Spawning ----

  function Reject(s: State, req: Spawn): State {
    s.(rejected := s.rejected + {req.ticket})
  }

  function Enqueue(s: State, req: Spawn): State {
    s.(queue := s.queue + [req])
  }

  /** The child session exists from here on, whether or not its loop gets going. */
  function CreateChild(s: State, req: Spawn, child: Id, status: Status): State {
    s.(sessions := s.sessions[child := Session(Some(req.parent), status, false)],
       rank := s.rank[child := s.births], births := s.births + 1)
  }

  function Launch(s: State, req: Spawn, child: Id): State {
    s.(agents := s.agents[child := ActiveAgent(child, Some(req.parent), req.kind, Some(req.callId), false)],
       handles := s.handles + {child},
       pending := if req.wantsReply then s.pending[child := req.ticket] else s.pending,
       running := s.running[child := req.ticket],
       started := s.started + [req.ticket])
  }

  /** `spawn_sub_agent`: depth check, queueing at the limit, then the steps that may fail. */
  ghost function SpawnSub(cfg: Config, s: State, req: Spawn, env: SpawnEnv): State
    requires Ranked(s.agents, s.rank)
  {
    if Depth(s.agents, s.rank, req.parent) >= cfg.maxDepth then Reject(s, req)
    else if |SubAgents(s.agents)| >= ConcurrencyLimit(cfg) then Enqueue(s, req)
    else if !env.known || req.parent !in s.sessions || !env.createOk || env.child in s.rank then Reject(s, req)
    else if !env.startOk then Reject(CreateChild(s, req, env.child, Idle), req)
    else if !env.provider then Reject(CreateChild(s, req, env.child, Running), req)
    else Launch(CreateChild(s, req, env.child, Running), req, env.child)
  }

  ghost function Receive(
    cfg: Config, s: State, parent: Id, callId: string, kind: string, wantsReply: bool, env: SpawnEnv): State
    requires Ranked(s.agents, s.rank)
  {
    SpawnSub(cfg, s.(received := s.received + 1), Spawn(s.received, parent, callId, kind, wantsReply), env)
  }

  /** `drain_queued_spawns`: at most one waiting spawn, and only if there is room. */
  ghost function Drain(cfg: Config, s: State, env: SpawnEnv): State
    requires Ranked(s.agents, s.rank)
  {
    if |SubAgents(s.agents)| < ConcurrencyLimit(cfg) && s.queue != [] then
      SpawnSub(cfg, s.(queue := s.queue[1..]), s.queue[0], env)
    else s
  }

  // ---- Finishing ----

  function SetStatus(sessions: map<Id, Session>, id: Id, status: Status): map<Id, Session> {
    if id in sessions then sessions[id := sessions[id].(status := status)] else sessions
  }

  function IsRunning(s: State, id: Id): bool {
    id in s.sessions && s.sessions[id].status == Running
  }

  /** A message about an agent that is not live, or about an older turn of a main session. */
  function Stale(s: State, id: Id): bool {
    id !in s.agents || (s.agents[id].parent.None? && IsRunning(s, id))
  }

  /** The agent leaves the registry; its session ends with `status`; its request is finished. */
  function Retire(s: State, id: Id, status: Status): State {
    s.(agents := s.agents - {id},
       handles := s.handles - {id},
       pending := s.pending - {id},
       sessions := SetStatus(s.sessions, id, status),
       running := s.running - {id},
       finished := if id in s.running then s.finished + {s.running[id]} else s.finished)
  }

  function Answer(s: State, ticket: nat, child: Id, ok: bool): State {
    s.(replies := s.replies + [Reply(ticket, child, ok)])
  }

  function Publish(s: State, id: Id, hook: Hook): State {
    s.(published := s.published + [Published(id, hook)])
  }

  /** Common part of `handle_done` and `handle_agent_error`. */
  function FinishAgent(s: State, id: Id, status: Status, ok: bool, hook: Hook): State {
    if Stale(s, id) then s
    else
      var r := Retire(s, id, status);
      if id in s.pending then Answer(r, s.pending[id], id, ok)
      else if s.agents[id].parent.Some? then r
      else Publish(r, id, hook)
  }

  function HandleDone(s: State, id: Id): State {
    FinishAgent(s, id, Idle, true, Stop(false))
  }

  function HandleError(s: State, id: Id, byUser: bool): State {
    FinishAgent(s, id, Failed, false, if byUser then Stop(true) else StopFailure)
  }

  // ---- Main agents ----

  function ResetTerminal(s: State, id: Id): State
    requires id in s.sessions
  {
    if s.sessions[id].status in [Completed, Failed] then s.(sessions := SetStatus(s.sessions, id, Idle)) else s
  }

  /** `start_main_agent` after the status gate has let it through. */
  function BeginTurn(s: State, id: Id, name: string): State
    requires id in s.sessions
  {
    var s1 := s.(sessions := s.sessions[id := s.sessions[id].(status := Running, cancelled := false)],
                 agents := s.agents[id := ActiveAgent(id, None, name, None, false)],
                 sources := s.sources + {id});
    var s2 := if id in s.sources then s1 else Publish(s1, id, SessionStart);
    Publish(s2, id, UserPromptSubmit)
  }

  function StartMain(s: State, id: Id, env: StartEnv): State
    requires id in s.sessions
  {
    if !env.known || !env.provider || s.sessions[id].status != Idle || !env.startOk then s
      else BeginTurn(s, id, env.name)
  }

  function HandleUserInput(s: State, id: Id, env: StartEnv): State {
    if id in s.sessions && s.sessions[id].parent.None? then StartMain(ResetTerminal(s, id), id, env) else s
  }

  // ---- Cancelling ----

  /** The agent and its live subtree, if they are live, and their current loops. */
  ghost function Cancelled(s: State, id: Id): set<Id>
    requires Ranked(s.agents, s.rank)
  {
    {id} + set d | d in s.agents && Under(s.agents, s.rank, id, d)
  }

  function CancelAll(s: State, ids: set<Id>): State {
    s.(agents := map id | id in s.agents :: if id in ids then s.agents[id].(cancelled := true) else s.agents[id],
       sessions := map id | id in s.sessions :: if id in ids then s.sessions[id].Interrupted() else s.sessions[id])
  }

  // ---- One step ----

  ghost function Next(cfg: Config, s: State, m: Message): State
    requires Ranked(s.agents, s.rank)
  {
    match m
    case SpawnRequested(parent, callId, kind, wantsReply, env) => Receive(cfg, s, parent, callId, kind, wantsReply, env)
    case AgentDone(id, env) => RetireKeepsRanked(s, id, Idle); Drain(cfg, HandleDone(s, id), env)
    case AgentError(id, byUser, env) => RetireKeepsRanked(s, id, Failed); Drain(cfg, HandleError(s, id, byUser), env)
    case AgentOutput(id) => s
    case UserInput(id, env) => HandleUserInput(s, id, env)
    case Cancel(id) => CancelAll(s, Cancelled(s, id))
    case SessionCreated(id) =>
      if id in s.rank then s
      else s.(sessions := s.sessions[id := Session(None, Idle, false)], rank := s.rank[id := s.births],
        births := s.births + 1)
    case SessionForgotten(id) => s.(sessions := s.sessions - {id})
    case LoopEnded(id, status) =>
      if id in s.sessions && status != Running then s.(sessions := SetStatus(s.sessions, id, status)) else s
  }

  lemma RetireKeepsRanked(s: State, id: Id, status: Status)
    requires Ranked(s.agents, s.rank)
    ensures Ranked(Retire(s, id, status).agents, s.rank)
  {
  }
}
