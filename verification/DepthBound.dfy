/**
 * The nesting depth of agents (crates/visp-agent/src/orchestrator.rs, compute_depth in
 * crates/visp-agent/src/active_agent.rs) and what cancelling reaches.
 */
module DepthBound {
  import opened Collections
  import opened ActiveAgents
  import opened Orchestration
  import opened SpawnInvariants
  import opened Lifecycle
  import opened OrchestratorRuns

  ghost predicate Bounded(cfg: Config, agents: Agents, rank: map<Id, nat>)
    requires Ranked(agents, rank)
  {
    forall id :: id in agents ==> Depth(agents, rank, id) <= cfg.maxDepth
  }

  ghost predicate NoOrphans(agents: Agents, id: Id) {
    forall a :: a in agents ==> agents[a].parent != Some(id)
  }

  // ---- How depths change ----

  lemma {:induction false} SameParents(a1: Agents, r1: map<Id, nat>, a2: Agents, r2: map<Id, nat>, id: Id)
    requires Ranked(a1, r1) && Ranked(a2, r2) && a1.Keys == a2.Keys
    requires forall x :: x in a1 ==> a1[x].parent == a2[x].parent
    ensures RootDistance(a1, r1, id) == RootDistance(a2, r2, id)
    decreases Age(r1, id)
  {
    if id in a1 && a1[id].parent.Some? {
      SameParents(a1, r1, a2, r2, a1[id].parent.value);
    }
  }

  /** An agent nobody has as a parent changes nothing for the others. */
  lemma {:induction false} AddLeaf(a1: Agents, r1: map<Id, nat>, a2: Agents, r2: map<Id, nat>, leaf: Id, id: Id)
    requires Ranked(a1, r1) && Ranked(a2, r2) && leaf !in a1 && leaf in a2 && a2 - {leaf} == a1
    requires NoOrphans(a1, leaf) && id != leaf
    ensures RootDistance(a1, r1, id) == RootDistance(a2, r2, id)
    decreases Age(r1, id)
  {
    assert forall x :: x in a1 ==> x in a2 && a2[x] == a1[x];
    if id in a1 && a1[id].parent.Some? {
      AddLeaf(a1, r1, a2, r2, leaf, a1[id].parent.value);
    }
  }

  /** Removing an agent breaks the chains through it and leaves the others alone. */
  lemma {:induction false} RemoveOne(a1: Agents, a2: Agents, rank: map<Id, nat>, gone: Id, id: Id)
    requires Ranked(a1, rank) && Ranked(a2, rank) && a2 == a1 - {gone}
    ensures RootDistance(a2, rank, id) == None || RootDistance(a2, rank, id) == RootDistance(a1, rank, id)
    decreases Age(rank, id)
  {
    if id in a2 && a2[id].parent.Some? {
      RemoveOne(a1, a2, rank, gone, a2[id].parent.value);
    }
  }

  // ---- Spawning and finishing keep the bound ----

  /** What a spawn does to the agents: nothing, or one new leaf under a parent above the bound. */
  lemma SpawnChanges(cfg: Config, s: State, req: Spawn, env: SpawnEnv)
    requires Ranked(s.agents, s.rank)
    ensures var r := SpawnSub(cfg, s, req, env);
            var newborn := env.child !in s.rank && r.rank == s.rank[env.child := s.births];
            || (r.agents == s.agents && (r.rank == s.rank || newborn))
            || (newborn && req.parent in s.sessions && Depth(s.agents, s.rank, req.parent) < cfg.maxDepth
                && r.agents == s.agents[env.child :=
                    ActiveAgent(env.child, Some(req.parent), req.kind, Some(req.callId), false)])
  {
    hide Ranked, Depth, SubAgents, ConcurrencyLimit, Launch, CreateChild, Reject, Enqueue;
    StepsOfSpawn(s, req, env.child);
  }

  lemma NewbornRanks(s: State, id: Id)
    requires Forest(s) && id !in s.rank
    ensures Ranked(s.agents, s.rank[id := s.births]) && id !in s.agents && NoOrphans(s.agents, id)
  {
  }

  lemma LeafRanks(s: State, leaf: ActiveAgent)
    requires Forest(s) && leaf.session !in s.rank && leaf.parent.Some? && leaf.parent.value in s.sessions
    ensures Ranked(s.agents[leaf.session := leaf], s.rank[leaf.session := s.births])
  {
  }

  lemma SameAgentsBound(cfg: Config, agents: Agents, r1: map<Id, nat>, r2: map<Id, nat>)
    requires Ranked(agents, r1) && Ranked(agents, r2) && Bounded(cfg, agents, r1)
    ensures Bounded(cfg, agents, r2)
  {
    forall x | x in agents
      ensures Depth(agents, r2, x) <= cfg.maxDepth
    {
      RankIrrelevant(agents, r1, r2, x, x);
    }
  }

  /** Adding a leaf: where it hangs, and that all others stay where they are. */
  lemma LeafDepths(s: State, leaf: ActiveAgent)
    requires Forest(s) && leaf.session !in s.rank && leaf.parent.Some? && leaf.parent.value in s.sessions
    requires Ranked(s.agents, s.rank)
    requires Ranked(s.agents[leaf.session := leaf], s.rank[leaf.session := s.births])
    ensures var agents, rank := s.agents[leaf.session := leaf], s.rank[leaf.session := s.births];
            && leaf.session !in s.agents
            && (forall x :: x in s.agents ==> RootDistance(agents, rank, x) == RootDistance(s.agents, s.rank, x))
            && RootDistance(agents, rank, leaf.session) ==
               match RootDistance(s.agents, s.rank, leaf.parent.value) case Some(d) => Some(d + 1) case None => None
  {
    var agents, rank := s.agents[leaf.session := leaf], s.rank[leaf.session := s.births];
    NewbornRanks(s, leaf.session);
    assert agents - {leaf.session} == s.agents;
    hide Ranked, Forest, NoOrphans;
    forall x | x != leaf.session
      ensures RootDistance(agents, rank, x) == RootDistance(s.agents, s.rank, x)
    {
      AddLeaf(s.agents, s.rank, agents, rank, leaf.session, x);
    }
    ParentIsOther(s, leaf);
  }

  lemma ParentIsOther(s: State, leaf: ActiveAgent)
    requires Forest(s) && leaf.session !in s.rank && leaf.parent.Some? && leaf.parent.value in s.sessions
    ensures leaf.parent.value != leaf.session
  {
  }

  /**
   * A spawn moves no live agent, whatever their depths; the child it may register hangs one below its
   * parent, or counts as a root if an ancestor is gone, and in both cases not below the maximum.
   */
  lemma SpawnDepths(cfg: Config, s: State, req: Spawn, env: SpawnEnv)
    requires Forest(s) && Ranked(s.agents, s.rank)
    ensures var r := SpawnSub(cfg, s, req, env);
            && Ranked(r.agents, r.rank)
            && (forall x :: x in s.agents ==>
                  x in r.agents && r.agents[x] == s.agents[x]
                    && RootDistance(r.agents, r.rank, x) == RootDistance(s.agents, s.rank, x))
            && (forall x :: x in r.agents && x !in s.agents ==>
                  && x == env.child && r.agents[x].parent == Some(req.parent)
                  && RootDistance(r.agents, r.rank, x) ==
                     (match RootDistance(s.agents, s.rank, req.parent) case Some(d) => Some(d + 1) case None => None)
                  && Depth(r.agents, r.rank, x) <= cfg.maxDepth)
  {
    SpawnChanges(cfg, s, req, env);
    hide SpawnSub, Ranked, Forest;
    var r := SpawnSub(cfg, s, req, env);
    if env.child !in s.rank {
      NewbornRanks(s, env.child);
      if r.agents != s.agents {
        var leaf := ActiveAgent(env.child, Some(req.parent), req.kind, Some(req.callId), false);
        LeafRanks(s, leaf);
        LeafDepths(s, leaf);
      } else {
        forall x | x in s.agents
          ensures RootDistance(s.agents, r.rank, x) == RootDistance(s.agents, s.rank, x)
        {
          RankIrrelevant(s.agents, s.rank, r.rank, x, x);
        }
      }
    }
  }

  lemma SpawnKeepsBound(cfg: Config, s: State, req: Spawn, env: SpawnEnv)
    requires Forest(s) && Bounded(cfg, s.agents, s.rank)
    ensures var r := SpawnSub(cfg, s, req, env); Ranked(r.agents, r.rank) && Bounded(cfg, r.agents, r.rank)
  {
    SpawnDepths(cfg, s, req, env);
    hide SpawnSub, Ranked, Forest;
  }

  /** Finishing changes the agents only by taking one away. */
  lemma FinishChanges(s: State, id: Id, status: Status, ok: bool, hook: Hook)
    ensures var r := FinishAgent(s, id, status, ok, hook);
            r.rank == s.rank && (r.agents == s.agents || r.agents == s.agents - {id})
  {
  }

  lemma RemoveBound(cfg: Config, agents: Agents, rank: map<Id, nat>, id: Id)
    requires Ranked(agents, rank) && Bounded(cfg, agents, rank)
    ensures Ranked(agents - {id}, rank) && Bounded(cfg, agents - {id}, rank)
  {
    forall x | x in agents - {id}
      ensures Depth(agents - {id}, rank, x) <= cfg.maxDepth
    {
      RemoveOne(agents, agents - {id}, rank, id, x);
    }
  }

  lemma FinishKeepsBound(cfg: Config, s: State, id: Id, status: Status, ok: bool, hook: Hook)
    requires Ranked(s.agents, s.rank) && Bounded(cfg, s.agents, s.rank)
    ensures var r := FinishAgent(s, id, status, ok, hook); Ranked(r.agents, r.rank) && Bounded(cfg, r.agents, r.rank)
  {
    hide FinishAgent, Ranked, Bounded;
    FinishChanges(s, id, status, ok, hook);
    RemoveBound(cfg, s.agents, s.rank, id);
  }

  lemma ReceiveKeepsBound(
    cfg: Config, s: State, parent: Id, callId: string, kind: string, wantsReply: bool, env: SpawnEnv)
    requires Forest(s) && Bounded(cfg, s.agents, s.rank)
    ensures var r := Receive(cfg, s, parent, callId, kind, wantsReply, env);
            Ranked(r.agents, r.rank) && Bounded(cfg, r.agents, r.rank)
  {
    var s1 := s.(received := s.received + 1);
    assert Forest(s1);
    hide SpawnSub, Bounded;
    SpawnKeepsBound(cfg, s1, Spawn(s.received, parent, callId, kind, wantsReply), env);
  }

  lemma DrainKeepsBound(cfg: Config, s: State, env: SpawnEnv)
    requires Forest(s) && Bounded(cfg, s.agents, s.rank)
    ensures var r := Drain(cfg, s, env); Ranked(r.agents, r.rank) && Bounded(cfg, r.agents, r.rank)
  {
    if |SubAgents(s.agents)| < ConcurrencyLimit(cfg) && s.queue != [] {
      SpawnKeepsBound(cfg, s.(queue := s.queue[1..]), s.queue[0], env);
    }
  }

  lemma FinishDrainKeepsBound(cfg: Config, s: State, id: Id, status: Status, ok: bool, hook: Hook, env: SpawnEnv)
    requires SpawnInv(cfg, s) && Ranked(s.agents, s.rank) && Bounded(cfg, s.agents, s.rank)
    ensures var f := FinishAgent(s, id, status, ok, hook);
            && Ranked(f.agents, f.rank)
            && var r := Drain(cfg, f, env); Ranked(r.agents, r.rank) && Bounded(cfg, r.agents, r.rank)
  {
    hide SpawnInv, FinishAgent, Drain, Bounded, Ranked, Forest;
    FinishKeepsInv(cfg, s, id, status, ok, hook);
    FinishKeepsBound(cfg, s, id, status, ok, hook);
    HasForest(cfg, FinishAgent(s, id, status, ok, hook));
    DrainKeepsBound(cfg, FinishAgent(s, id, status, ok, hook), env);
  }

  // ---- The restart over orphans ----

  /** The number of parent links from a descendant up to `root`. */
  ghost function Links(agents: Agents, rank: map<Id, nat>, root: Id, id: Id): nat
    requires Ranked(agents, rank) && Under(agents, rank, root, id)
    decreases Age(rank, id)
  {
    if agents[id].parent.value == root then 1 else 1 + Links(agents, rank, root, agents[id].parent.value)
  }

  /** Some live agent is more than `maxDepth` links below `root`. */
  ghost predicate HangsTooDeep(cfg: Config, agents: Agents, rank: map<Id, nat>, root: Id)
    requires Ranked(agents, rank)
  {
    exists d :: Under(agents, rank, root, d) && Links(agents, rank, root, d) > cfg.maxDepth
  }

  lemma {:induction false} Rejoined(a1: Agents, rank: map<Id, nat>, a2: Agents, root: ActiveAgent, id: Id)
    requires Ranked(a1, rank) && Ranked(a2, rank)
    requires root.session !in a1 && root.parent.None? && a2 == a1[root.session := root] && id in a1
    ensures RootDistance(a2, rank, id) ==
            if Under(a1, rank, root.session, id) then Some(Links(a1, rank, root.session, id))
              else RootDistance(a1, rank, id)
    decreases Age(rank, id)
  {
    if a1[id].parent.Some? && a1[id].parent.value in a1 {
      Rejoined(a1, rank, a2, root, a1[id].parent.value);
    }
  }

  /**
   * Starting a root again while agents of its former tree are still live reconnects them. The bound
   * survives exactly when none of them hangs more than `maxDepth` links below the root.
   */
  lemma RestartBoundIff(cfg: Config, agents: Agents, rank: map<Id, nat>, root: ActiveAgent)
    requires Ranked(agents, rank) && Bounded(cfg, agents, rank)
    requires root.session !in agents && root.session in rank && root.parent.None?
    ensures Ranked(agents[root.session := root], rank)
    ensures Bounded(cfg, agents[root.session := root], rank) <==> !HangsTooDeep(cfg, agents, rank, root.session)
  {
    var a2 := agents[root.session := root];
    forall id | id in agents
      ensures Depth(a2, rank, id) == if Under(agents, rank, root.session, id)
                                     then Links(agents, rank, root.session, id) else Depth(agents, rank, id)
    {
      Rejoined(agents, rank, a2, root, id);
    }
    assert Depth(a2, rank, root.session) == 0;
    if Bounded(cfg, a2, rank) {
      forall d | Under(agents, rank, root.session, d)
        ensures Links(agents, rank, root.session, d) <= cfg.maxDepth
      {
        assert d in agents && d in a2;
        assert Depth(a2, rank, d) <= cfg.maxDepth;
      }
    } else {
      var d :| d in a2 && Depth(a2, rank, d) > cfg.maxDepth;
      assert d in agents && Depth(agents, rank, d) <= cfg.maxDepth;
      assert Under(agents, rank, root.session, d) && Links(agents, rank, root.session, d) > cfg.maxDepth;
    }
  }

  // ---- Every step ----

  /** The conditions under which user input starts a turn. */
  predicate Starts(s: State, id: Id, env: StartEnv) {
    && id in s.sessions && s.sessions[id].parent.None? && s.sessions[id].status != Running
    && env.known && env.provider && env.startOk
  }

  /** What user input does to the live agents. */
  lemma UserInputAgents(s: State, id: Id, env: StartEnv)
    requires Forest(s) && Agree(s)
    ensures var r := HandleUserInput(s, id, env);
            && r.rank == s.rank && Ranked(r.agents, r.rank)
            && (id in s.agents && id in s.sessions && s.sessions[id].parent.None? ==> s.agents[id].parent.None?)
            && r.agents == if Starts(s, id, env) then s.agents[id := ActiveAgent(id, None, env.name, None, false)]
                else s.agents
  {
    UserInputFacts(s, id, env);
  }

  /** The start of a root that is not registered while some live agent hangs too far below it. */
  ghost predicate RejoinsTooDeep(cfg: Config, s: State, m: Message)
    requires Ranked(s.agents, s.rank)
  {
    && m.UserInput? && Starts(s, m.id, m.start) && m.id !in s.agents
    && HangsTooDeep(cfg, s.agents, s.rank, m.id)
  }

  lemma UserInputBoundIff(cfg: Config, s: State, id: Id, env: StartEnv)
    requires Forest(s) && Agree(s) && Bounded(cfg, s.agents, s.rank)
    ensures var r := HandleUserInput(s, id, env);
            && Ranked(r.agents, r.rank)
            && (Bounded(cfg, r.agents, r.rank) <==> !RejoinsTooDeep(cfg, s, UserInput(id, env)))
  {
    UserInputAgents(s, id, env);
    assert id in s.sessions ==> id in s.rank;
    assert Ranked(s.agents, s.rank);
    hide HandleUserInput, Forest, Agree, Ranked;
    var r := HandleUserInput(s, id, env);
    if Starts(s, id, env) {
      var root := ActiveAgent(id, None, env.name, None, false);
      if id in s.agents {
        forall x | x in r.agents
          ensures Depth(r.agents, r.rank, x) <= cfg.maxDepth
        {
          SameParents(s.agents, s.rank, r.agents, r.rank, x);
        }
      } else {
        hide Bounded, HangsTooDeep;
        RestartBoundIff(cfg, s.agents, s.rank, root);
      }
    }
  }

  lemma CancelKeepsBound(cfg: Config, s: State, ids: set<Id>)
    requires Forest(s) && Bounded(cfg, s.agents, s.rank)
    ensures var r := CancelAll(s, ids); Ranked(r.agents, r.rank) && Bounded(cfg, r.agents, r.rank)
  {
    var r := CancelAll(s, ids);
    forall x | x in r.agents
      ensures Depth(r.agents, r.rank, x) <= cfg.maxDepth
    {
      SameParents(s.agents, s.rank, r.agents, r.rank, x);
    }
  }

  lemma SessionStepKeepsBound(cfg: Config, s: State, m: Message)
    requires Forest(s) && Ranked(s.agents, s.rank) && Bounded(cfg, s.agents, s.rank)
    requires m.SessionCreated? || m.SessionForgotten? || m.LoopEnded?
    ensures var r := Next(cfg, s, m); Ranked(r.agents, r.rank) && Bounded(cfg, r.agents, r.rank)
  {
    hide Bounded, Ranked, Forest, NoOrphans, Receive, Drain, HandleUserInput, FinishAgent, CancelAll, Cancelled;
    if m.SessionCreated? && m.id !in s.rank {
      NewbornRanks(s, m.id);
      SameAgentsBound(cfg, s.agents, s.rank, s.rank[m.id := s.births]);
    }
  }

  /** A step keeps every live agent within the bound exactly when it does not rejoin agents too deep. */
  lemma NextKeepsBoundIff(cfg: Config, s: State, m: Message)
    requires SpawnInv(cfg, s) && Agree(s) && Ranked(s.agents, s.rank) && Bounded(cfg, s.agents, s.rank)
    ensures var r := Next(cfg, s, m);
            Ranked(r.agents, r.rank) && (Bounded(cfg, r.agents, r.rank) <==> !RejoinsTooDeep(cfg, s, m))
  {
    HasForest(cfg, s);
    hide SpawnInv, Agree, Bounded, Drain, FinishAgent, HandleUserInput, CancelAll, Cancelled, Receive, NoOrphans,
      Ranked, Forest;
    match m
    case SpawnRequested(parent, callId, kind, wantsReply, env) =>
      ReceiveKeepsBound(cfg, s, parent, callId, kind, wantsReply, env);
    case AgentDone(id, env) =>
      FinishDrainKeepsBound(cfg, s, id, Idle, true, Stop(false), env);
    case AgentError(id, byUser, env) =>
      var hook := if byUser then Stop(true) else StopFailure;
      FinishDrainKeepsBound(cfg, s, id, Failed, false, hook, env);
    case AgentOutput(id) =>
    case UserInput(id, env) =>
      UserInputBoundIff(cfg, s, id, env);
    case Cancel(id) =>
      CancelKeepsBound(cfg, s, Cancelled(s, id));
    case SessionCreated(id) =>
      SessionStepKeepsBound(cfg, s, m);
    case SessionForgotten(id) =>
      SessionStepKeepsBound(cfg, s, m);
    case LoopEnded(id, status) =>
      SessionStepKeepsBound(cfg, s, m);
  }

  lemma HasForest(cfg: Config, s: State)
    requires SpawnInv(cfg, s)
    ensures Forest(s)
  {
  }

  /** Over every run in which no step rejoins agents too deep, every live agent's depth is within the bound. */
  lemma {:induction false} RunKeepsBound(cfg: Config, ss: seq<State>, ms: seq<Message>, i: nat)
    requires Run(cfg, ss, ms) && i <= |ms|
    requires forall k :: 0 <= k < i ==> Ranked(ss[k].agents, ss[k].rank) && !RejoinsTooDeep(cfg, ss[k], ms[k])
    ensures Ranked(ss[i].agents, ss[i].rank) && Bounded(cfg, ss[i].agents, ss[i].rank)
  {
    hide Next, SpawnInv, LifeInv, RejoinsTooDeep;
    if i > 0 {
      RunKeepsBound(cfg, ss, ms, i - 1);
      RunKeepsInv(cfg, ss, ms, i - 1);
      LifeAgrees(ss[i - 1]);
      assert Stepped(cfg, ss[i - 1], ms[i - 1], ss[i]) && !RejoinsTooDeep(cfg, ss[i - 1], ms[i - 1]);
      hide Bounded;
      NextKeepsBoundIff(cfg, ss[i - 1], ms[i - 1]);
    }
  }
}
