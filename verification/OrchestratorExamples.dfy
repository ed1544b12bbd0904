/**
 * Runs from the start of the daemon that reach the cases in which the orchestrator falls short of
 * its limits (crates/visp-agent/src/orchestrator.rs).
 */
module OrchestratorExamples {
  import opened Collections
  import opened ActiveAgents
  import opened Orchestration
  import opened SpawnInvariants
  import opened Lifecycle
  import opened OrchestratorRuns
  import opened Scheduling
  import opened DepthBound

  const START := StartEnv(true, "main", true, true)

  function Child(id: Id): SpawnEnv {
    SpawnEnv(true, id, true, true, true)
  }

  function Root(id: Id): ActiveAgent {
    ActiveAgent(id, None, "main", None, false)
  }

  function Sub(id: Id, parent: Id): ActiveAgent {
    ActiveAgent(id, Some(parent), "kind", Some("call"), false)
  }

  function Request(parent: Id, env: SpawnEnv): Message {
    SpawnRequested(parent, "call", "kind", false, env)
  }

  ghost predicate Reached(cfg: Config, s: State) {
    SpawnInv(cfg, s) && LifeInv(s)
  }

  lemma Start(cfg: Config)
    ensures Reached(cfg, INITIAL) && Ranked(INITIAL.agents, INITIAL.rank)
  {
    InitialInv(cfg);
    InitialLife();
    Facts(cfg, INITIAL);
  }

  lemma Facts(cfg: Config, s: State)
    requires Reached(cfg, s)
    ensures Ranked(s.agents, s.rank) && s.handles == SubAgents(s.agents) && Agree(s) && Forest(s)
  {
  }

  lemma Go(cfg: Config, s: State, m: Message)
    requires Reached(cfg, s) && Ranked(s.agents, s.rank)
    ensures var r := Next(cfg, s, m); Reached(cfg, r) && Ranked(r.agents, r.rank) && Stepped(cfg, s, m, r)
  {
    hide Next, SpawnInv, LifeInv;
    LifeAgrees(s);
    NextKeepsInv(cfg, s, m);
    NextKeepsLife(cfg, s, m);
    Facts(cfg, Next(cfg, s, m));
  }

  // ---- Single steps ----

  lemma Create(cfg: Config, s: State, id: Id)
    requires Ranked(s.agents, s.rank) && id !in s.rank
    ensures var r := Next(cfg, s, SessionCreated(id));
            r == s.(sessions := s.sessions[id := Session(None, Idle, false)], rank := s.rank[id := s.births],
              births := s.births + 1)
  {
  }

  lemma Input(cfg: Config, s: State, id: Id)
    requires Ranked(s.agents, s.rank) && id in s.sessions && s.sessions[id] == Session(None, Idle, false)
    ensures var r := Next(cfg, s, UserInput(id, START));
            && r.agents == s.agents[id := Root(id)] && r.sessions == s.sessions[id := Session(None, Running, false)]
            && r.rank == s.rank && r.births == s.births && r.queue == s.queue && r.handles == s.handles
  {
    hide BeginTurn, Ranked;
    assert ResetTerminal(s, id) == s;
    BeginShape(s, id, "main");
    BeginLeaves(s, id, "main");
  }

  lemma BeginLeaves(s: State, id: Id, name: string)
    requires id in s.sessions
    ensures var r := BeginTurn(s, id, name);
            r.rank == s.rank && r.births == s.births && r.queue == s.queue && r.handles == s.handles
  {
  }

  lemma Begin(cfg: Config, s: State, parent: Id, id: Id)
    requires Ranked(s.agents, s.rank) && Depth(s.agents, s.rank, parent) < cfg.maxDepth
    requires |SubAgents(s.agents)| < ConcurrencyLimit(cfg) && parent in s.sessions && id !in s.rank
    ensures var r := Next(cfg, s, Request(parent, Child(id)));
            && r.agents == s.agents[id := Sub(id, parent)]
            && r.sessions == s.sessions[id := Session(Some(parent), Running, false)]
            && r.rank == s.rank[id := s.births] && r.births == s.births + 1 && r.queue == s.queue
            && r.handles == s.handles + {id}
  {
    hide Ranked, Depth, SubAgents, ConcurrencyLimit;
  }

  lemma Wait(cfg: Config, s: State, parent: Id, env: SpawnEnv)
    requires Ranked(s.agents, s.rank) && Depth(s.agents, s.rank, parent) < cfg.maxDepth
    requires |SubAgents(s.agents)| >= ConcurrencyLimit(cfg)
    ensures var r := Next(cfg, s, Request(parent, env));
            |r.queue| == |s.queue| + 1 && r == s.(queue := r.queue, received := s.received + 1)
  {
    hide Ranked, Depth, SubAgents, ConcurrencyLimit;
  }

  lemma End(cfg: Config, s: State, id: Id)
    requires Ranked(s.agents, s.rank) && id in s.sessions
    ensures var r := Next(cfg, s, LoopEnded(id, Idle));
      r == s.(sessions := s.sessions[id := s.sessions[id].(status := Idle)])
  {
  }

  lemma Done(cfg: Config, s: State, id: Id, env: SpawnEnv)
    requires Ranked(s.agents, s.rank) && id in s.agents && id in s.sessions && s.queue == []
    requires s.sessions[id].status == Idle
    ensures var r := Next(cfg, s, AgentDone(id, env));
            && r.agents == s.agents - {id} && r.sessions == s.sessions && r.rank == s.rank && r.births == s.births
            && r.queue == s.queue && r.handles == s.handles - {id}
  {
    hide Ranked, SubAgents, ConcurrencyLimit;
    assert s.sessions[id := s.sessions[id].(status := Idle)] == s.sessions;
    RetireKeepsRanked(s, id, Idle);
  }

  // ---- A restart over agents that are left behind ----

  /** Depth bound 1, no limit on the number of sub-agents. */
  const SHALLOW := Config(1, 0)

  function RestartMessages(): seq<Message> {
    [SessionCreated("r"), UserInput("r", START), Request("r", Child("a")), LoopEnded("r", Idle),
      AgentDone("r", Child("x")),
     Request("a", Child("b")), UserInput("r", START)]
  }

  /**
   * A root starts a child and ends; the child, an orphan now, counts as a root and may start a child
   * of its own; when the root is started again, that grandchild is at depth two.
   */
  lemma RestartExceedsBound() returns (ss: seq<State>)
    ensures Run(SHALLOW, ss, RestartMessages())
    ensures forall i :: 0 <= i < 7 ==> Ranked(ss[i].agents, ss[i].rank) && Bounded(SHALLOW, ss[i].agents, ss[i].rank)
    ensures Ranked(ss[7].agents, ss[7].rank) && !Bounded(SHALLOW, ss[7].agents, ss[7].rank)
  {
    hide Next, Reached, Ranked, SubAgents, Stepped, Bounded, Agree, SpawnInv;
    var ms := RestartMessages();
    Start(SHALLOW);
    Limit();
    var s0 := INITIAL;
    Go(SHALLOW, s0, ms[0]);
    Create(SHALLOW, s0, "r");
    var s1 := Next(SHALLOW, s0, ms[0]);
    Go(SHALLOW, s1, ms[1]);
    Input(SHALLOW, s1, "r");
    var s2 := Next(SHALLOW, s1, ms[1]);
    assert s2.agents == map["r" := Root("r")];
    Few(s2.agents, "r", "r");
    Go(SHALLOW, s2, ms[2]);
    Begin(SHALLOW, s2, "r", "a");
    var s3 := Next(SHALLOW, s2, ms[2]);
    assert s3.agents == map["r" := Root("r"), "a" := Sub("a", "r")];
    Go(SHALLOW, s3, ms[3]);
    End(SHALLOW, s3, "r");
    var s4 := Next(SHALLOW, s3, ms[3]);
    Go(SHALLOW, s4, ms[4]);
    Done(SHALLOW, s4, "r", Child("x"));
    var s5 := Next(SHALLOW, s4, ms[4]);
    assert s5.agents == map["a" := Sub("a", "r")];
    Few(s5.agents, "a", "a");
    assert RootDistance(s5.agents, s5.rank, "r") == None;
    Go(SHALLOW, s5, ms[5]);
    Begin(SHALLOW, s5, "a", "b");
    var s6 := Next(SHALLOW, s5, ms[5]);
    assert s6.agents == map["a" := Sub("a", "r"), "b" := Sub("b", "a")];
    Go(SHALLOW, s6, ms[6]);
    var s7 := Next(SHALLOW, s6, ms[6]);
    ss := [s0, s1, s2, s3, s4, s5, s6, s7];
    BothOrphans(s6.agents, s6.rank);
    LastStep(s6);
    SmallDepths(s0.agents, s0.rank);
    SmallDepths(s1.agents, s1.rank);
    SmallDepths(s2.agents, s2.rank);
    SmallDepths(s3.agents, s3.rank);
    SmallDepths(s4.agents, s4.rank);
    SmallDepths(s5.agents, s5.rank);
  }

  lemma Limit()
    ensures ConcurrencyLimit(SHALLOW) == USIZE_MAX
  {
  }

  lemma Few(agents: Agents, a: Id, b: Id)
    requires agents.Keys <= {a, b}
    ensures |SubAgents(agents)| <= 2
  {
    var s := SubAgents(agents);
    assert s <= {a, b};
    assert |{a, b} - s| >= 0 && |s| + |{a, b} - s| == |{a, b}| by {
      assert {a, b} == s + ({a, b} - s);
    }
  }

  /** Agents whose parents are roots or gone. */
  lemma SmallDepths(agents: Agents, rank: map<Id, nat>)
    requires Ranked(agents, rank)
    requires forall a :: a in agents && agents[a].parent.Some? && agents[a].parent.value in agents ==>
               agents[agents[a].parent.value].parent.None?
    ensures Bounded(SHALLOW, agents, rank)
  {
    forall a | a in agents
      ensures Depth(agents, rank, a) <= 1
    {
      if agents[a].parent.Some? {
        var p := agents[a].parent.value;
        assert RootDistance(agents, rank, p) == if p in agents then Some(0) else None;
      }
    }
  }

  lemma BothOrphans(agents: Agents, rank: map<Id, nat>)
    requires Ranked(agents, rank) && agents == map["a" := Sub("a", "r"), "b" := Sub("b", "a")]
    ensures Bounded(SHALLOW, agents, rank) && HangsTooDeep(SHALLOW, agents, rank, "r")
  {
    assert RootDistance(agents, rank, "a") == None;
    assert RootDistance(agents, rank, "b") == None;
    assert Under(agents, rank, "r", "a") && Under(agents, rank, "r", "b");
    assert Links(agents, rank, "r", "a") == 1;
    assert Links(agents, rank, "r", "b") == 2;
  }

  lemma LastStep(s: State)
    requires Reached(SHALLOW, s) && Ranked(s.agents, s.rank) && Bounded(SHALLOW, s.agents, s.rank)
    requires "r" !in s.agents && "r" in s.sessions && s.sessions["r"] == Session(None, Idle, false)
    requires HangsTooDeep(SHALLOW, s.agents, s.rank, "r")
    ensures var r := Next(SHALLOW, s, UserInput("r", START));
      Ranked(r.agents, r.rank) && !Bounded(SHALLOW, r.agents, r.rank)
  {
    Facts(SHALLOW, s);
    hide Next, SpawnInv, LifeInv, HangsTooDeep, Bounded;
    NextKeepsBoundIff(SHALLOW, s, UserInput("r", START));
  }

  // ---- A slot that stays idle ----

  /** One sub-agent at a time. */
  const NARROW := Config(5, 1)

  function IdleMessages(): seq<Message> {
    [SessionCreated("r"), UserInput("r", START), Request("r", Child("a")), Request("r", Child("b")),
      Request("r", Child("c")),
     LoopEnded("a", Idle), AgentDone("a", Child("b").(known := false))]
  }

  /** Two requests wait; the end of the running child takes the first, which is refused, and leaves the second. */
  lemma SlotStaysIdle() returns (ss: seq<State>)
    ensures Run(NARROW, ss, IdleMessages())
    ensures NoIdleSlot(NARROW, ss[6]) && RetiresSub(ss[6], IdleMessages()[6]) && !NoIdleSlot(NARROW, ss[7])
  {
    hide Next, Reached, Ranked, SubAgents, Stepped, NoIdleSlot, SpawnInv, RetiresSub;
    var ms := IdleMessages();
    Start(NARROW);
    assert ConcurrencyLimit(NARROW) == 1;
    var s0 := INITIAL;
    Go(NARROW, s0, ms[0]);
    Create(NARROW, s0, "r");
    var s1 := Next(NARROW, s0, ms[0]);
    Go(NARROW, s1, ms[1]);
    Input(NARROW, s1, "r");
    var s2 := Next(NARROW, s1, ms[1]);
    OneRoot(s2.agents);
    Go(NARROW, s2, ms[2]);
    Begin(NARROW, s2, "r", "a");
    var s3 := Next(NARROW, s2, ms[2]);
    OneSub(s3.agents);
    Go(NARROW, s3, ms[3]);
    Wait(NARROW, s3, "r", Child("b"));
    var s4 := Next(NARROW, s3, ms[3]);
    Go(NARROW, s4, ms[4]);
    Wait(NARROW, s4, "r", Child("c"));
    var s5 := Next(NARROW, s4, ms[4]);
    Go(NARROW, s5, ms[5]);
    End(NARROW, s5, "a");
    var s6 := Next(NARROW, s5, ms[5]);
    Go(NARROW, s6, ms[6]);
    var s7 := Next(NARROW, s6, ms[6]);
    ss := [s0, s1, s2, s3, s4, s5, s6, s7];
    EndLeavesIdle(s6);
  }

  lemma OneRoot(agents: Agents)
    requires agents == map["r" := Root("r")]
    ensures SubAgents(agents) == {}
  {
  }

  lemma OneSub(agents: Agents)
    requires agents == map["r" := Root("r"), "a" := Sub("a", "r")]
    ensures SubAgents(agents) == {"a"}
  {
  }

  lemma EndLeavesIdle(s: State)
    requires Reached(NARROW, s) && Ranked(s.agents, s.rank) && |s.queue| == 2
    requires s.agents == map["r" := Root("r"), "a" := Sub("a", "r")]
    ensures var m := IdleMessages()[6];
            NoIdleSlot(NARROW, s) && RetiresSub(s, m) && !NoIdleSlot(NARROW, Next(NARROW, s, m))
  {
    hide Next, SpawnInv;
    Facts(NARROW, s);
    OneSub(s.agents);
    SlotRefilledIff(NARROW, s, IdleMessages()[6]);
  }
}
