/**
 * The registry of live agents (crates/visp-agent/src/active_agent.rs): a forest held as a map from
 * session id to agent, with loops that walk up and down the parent links.
 */
module ActiveAgents {
  import opened Collections

  type Id = string

  datatype ActiveAgent = ActiveAgent(
    session: Id,
    parent: Option<Id>,
    name: string,
    callId: Option<string>,
    cancelled: bool)

  type Agents = map<Id, ActiveAgent>

  /**
   * The parent links go back in time: `rank` orders the sessions by creation and every parent is
   * older than its child. Without this the loops below would not end.
   */
  ghost predicate Ranked(agents: Agents, rank: map<Id, nat>) {
    forall id :: id in agents ==>
      && agents[id].session == id && id in rank
      && (agents[id].parent.Some? ==> agents[id].parent.value in rank && rank[agents[id].parent.value] < rank[id])
  }

  ghost function Age(rank: map<Id, nat>, id: Id): nat {
    if id in rank then rank[id] else 0
  }

  /** How far an agent is from the root of its tree; nothing if an ancestor, or itself, is not live. */
  ghost function RootDistance(agents: Agents, rank: map<Id, nat>, id: Id): Option<nat>
    requires Ranked(agents, rank)
    decreases Age(rank, id)
  {
    if id !in agents then None
    else match agents[id].parent
      case None => Some(0)
      case Some(p) =>
        match RootDistance(agents, rank, p)
        case None => None
        case Some(d) => Some(d + 1)
  }

  /** The depth as computed: 0 for a root and whenever an ancestor is missing. */
  ghost function Depth(agents: Agents, rank: map<Id, nat>, id: Id): nat
    requires Ranked(agents, rank)
  {
    match RootDistance(agents, rank, id) case Some(d) => d case None => 0
  }

  /** `id` is live and its parent links lead through live agents to `root`, which need not be live. */
  ghost predicate Under(agents: Agents, rank: map<Id, nat>, root: Id, id: Id)
    requires Ranked(agents, rank)
    decreases Age(rank, id)
  {
    && id in agents && agents[id].parent.Some?
    && (agents[id].parent.value == root || Under(agents, rank, root, agents[id].parent.value))
  }

  // ---- The same by chains of parents ----

  /** Each agent of the chain is live and has the next one as its parent. */
  ghost predicate Ascent(agents: Agents, p: seq<Id>, id: Id, top: Id) {
    && p != [] && p[0] == id && p[|p| - 1] == top
    && forall i :: 0 <= i < |p| - 1 ==> p[i] in agents && agents[p[i]].parent == Some(p[i + 1])
  }

  ghost predicate RootChain(agents: Agents, p: seq<Id>, id: Id) {
    && p != [] && Ascent(agents, p, id, p[|p| - 1])
    && p[|p| - 1] in agents && agents[p[|p| - 1]].parent.None?
  }

  lemma AscentStep(agents: Agents, p: seq<Id>, id: Id, top: Id)
    requires Ascent(agents, p, id, top)
    ensures |p| > 1 ==>
              id in agents && agents[id].parent == Some(p[1]) && Ascent(agents, p[1..], p[1], top)
  {
  }

  lemma {:induction false} ChainsToRoot(agents: Agents, rank: map<Id, nat>, id: Id) returns (p: seq<Id>)
    requires Ranked(agents, rank)
    ensures RootDistance(agents, rank, id).Some? ==> RootChain(agents, p, id)
    ensures forall q :: RootChain(agents, q, id) ==> RootDistance(agents, rank, id) == Some(|q| - 1)
    decreases Age(rank, id)
  {
    p := [id];
    if id in agents && agents[id].parent.Some? {
      var above := ChainsToRoot(agents, rank, agents[id].parent.value);
      p := [id] + above;
      forall q | RootChain(agents, q, id)
        ensures RootDistance(agents, rank, id) == Some(|q| - 1)
      {
        AscentStep(agents, q, id, q[|q| - 1]);
        assert RootChain(agents, q[1..], agents[id].parent.value);
      }
    } else {
      forall q | RootChain(agents, q, id)
        ensures |q| == 1 && id in agents
      {
        AscentStep(agents, q, id, q[|q| - 1]);
      }
    }
  }

  /** The depth is the number of links to the root, and 0 when the chain breaks off before it. */
  lemma DepthIsLinks(agents: Agents, rank: map<Id, nat>, id: Id)
    requires Ranked(agents, rank)
    ensures forall p :: RootChain(agents, p, id) ==> Depth(agents, rank, id) == |p| - 1
    ensures (forall p :: !RootChain(agents, p, id)) ==> Depth(agents, rank, id) == 0
  {
    var p := ChainsToRoot(agents, rank, id);
  }

  /** A descendant is a live agent with a chain of one link or more to the root. */
  lemma {:induction false} UnderIsChain(agents: Agents, rank: map<Id, nat>, root: Id, id: Id) returns (p: seq<Id>)
    requires Ranked(agents, rank)
    ensures Under(agents, rank, root, id) ==> |p| > 1 && Ascent(agents, p, id, root)
    ensures (exists q :: |q| > 1 && Ascent(agents, q, id, root)) ==> Under(agents, rank, root, id)
    decreases Age(rank, id)
  {
    p := [id];
    if id in agents && agents[id].parent.Some? {
      var parent := agents[id].parent.value;
      var above := UnderIsChain(agents, rank, root, parent);
      p := if parent == root then [id, root] else [id] + above;
    }
    forall q | |q| > 1 && Ascent(agents, q, id, root)
      ensures Under(agents, rank, root, id)
    {
      AscentStep(agents, q, id, root);
    }
  }

  /** Descendants are younger, so nothing is its own descendant. */
  lemma {:induction false} UnderIsYounger(agents: Agents, rank: map<Id, nat>, root: Id, id: Id)
    requires Ranked(agents, rank) && Under(agents, rank, root, id)
    ensures root in rank && id in rank && rank[root] < rank[id]
    decreases Age(rank, id)
  {
    if agents[id].parent.value != root {
      UnderIsYounger(agents, rank, root, agents[id].parent.value);
    }
  }

  lemma NoCycle(agents: Agents, rank: map<Id, nat>, id: Id)
    requires Ranked(agents, rank)
    ensures !Under(agents, rank, id, id)
  {
    if Under(agents, rank, id, id) {
      UnderIsYounger(agents, rank, id, id);
    }
  }

  /** The answers do not depend on the order used to justify termination. */
  lemma {:induction false} RankIrrelevant(agents: Agents, r1: map<Id, nat>, r2: map<Id, nat>, root: Id, id: Id)
    requires Ranked(agents, r1) && Ranked(agents, r2)
    ensures RootDistance(agents, r1, id) == RootDistance(agents, r2, id)
    ensures Under(agents, r1, root, id) == Under(agents, r2, root, id)
    decreases Age(r1, id)
  {
    if id in agents && agents[id].parent.Some? {
      RankIrrelevant(agents, r1, r2, root, agents[id].parent.value);
    }
  }

  /** A set that contains the children of the root and of its own members contains all descendants. */
  lemma {:induction false} ClosedHasAll(agents: Agents, rank: map<Id, nat>, root: Id, s: set<Id>, id: Id)
    requires Ranked(agents, rank) && Under(agents, rank, root, id)
    requires forall c ::
               c in agents && agents[c].parent.Some? && (agents[c].parent.value == root || agents[c].parent.value in s)
               ==> c in s
    ensures id in s
    decreases Age(rank, id)
  {
    if agents[id].parent.value != root {
      ClosedHasAll(agents, rank, root, s, agents[id].parent.value);
    }
  }

  ghost function Ids(found: seq<ActiveAgent>): set<Id> {
    set a | a in found :: a.session
  }

  class ActiveAgentRegistry {
    var agents: Agents

    constructor ()
      ensures agents == map[]
    {
      agents := map[];
    }

    method Register(agent: ActiveAgent)
      modifies this
      ensures agents == old(agents)[agent.session := agent]
    {
      agents := agents[agent.session := agent];
    }

    method Remove(id: Id) returns (removed: Option<ActiveAgent>)
      modifies this
      ensures agents == old(agents) - {id}
      ensures removed == if id in old(agents) then Some(old(agents)[id]) else None
    {
      removed := if id in agents then Some(agents[id]) else None;
      agents := agents - {id};
    }

    /** Cancels the token that belongs to a live agent. */
    method CancelToken(id: Id)
      requires id in agents
      modifies this
      ensures agents == old(agents)[id := old(agents)[id].(cancelled := true)]
    {
      agents := agents[id := agents[id].(cancelled := true)];
    }

    /** Walks up the parent links. */
    method ComputeDepth(id: Id, ghost rank: map<Id, nat>) returns (depth: nat)
      requires Ranked(agents, rank)
      ensures depth == Depth(agents, rank, id)
    {
      depth := 0;
      var current := id;
      while true
        invariant match RootDistance(agents, rank, current)
                  case None => RootDistance(agents, rank, id) == None
                  case Some(d) => RootDistance(agents, rank, id) == Some(d + depth)
        decreases Age(rank, current)
      {
        if current !in agents {
          return 0;
        }
        match agents[current].parent
        case Some(parent) =>
          depth := depth + 1;
          current := parent;
        case None =>
          return depth;
      }
    }

    /** All live descendants, each once, in whatever order the map yields its values. */
    method DescendantsOf(root: Id, ghost rank: map<Id, nat>) returns (found: seq<ActiveAgent>)
      requires Ranked(agents, rank)
      ensures forall i, j :: 0 <= i < j < |found| ==> found[i].session != found[j].session
      ensures forall a :: a in found ==> a.session in agents && agents[a.session] == a
      ensures forall id :: id in Ids(found) <==> Under(agents, rank, root, id)
    {
      hide Traversal, Traversing, Under;
      found := [];
      var stack: seq<Id> := [root];
      ghost var processed: set<Id> := {};
      TraversalStart(agents, rank, root);
      while stack != []
        invariant Traversal(agents, rank, root, found, stack, processed)
        decreases agents.Keys - Ids(found), |stack|
      {
        var current := stack[|stack| - 1];
        ghost var before, rest := found, stack[..|stack| - 1];
        Pop(agents, rank, root, found, stack, processed);
        stack := stack[..|stack| - 1];
        var todo := agents.Keys;
        while todo != {}
          invariant todo <= agents.Keys
          invariant Traversing(agents, rank, root, found, stack, processed, current, todo)
          invariant before <= found && (found == before ==> stack == rest)
          decreases |todo|
        {
          var id :| id in todo;
          var child := agents[id];
          if child.parent == Some(current) {
            Discover(agents, rank, root, found, stack, processed, current, todo, id);
            found := found + [child];
            stack := stack + [child.session];
          } else {
            Skip(agents, rank, root, found, stack, processed, current, todo, id);
          }
          todo := todo - {id};
        }
        Finish(agents, rank, root, found, stack, processed, current);
        processed := processed + {current};
        Progress(agents, rank, root, before, found, stack, processed);
      }
      TraversalDone(agents, rank, root, found, processed);
    }
  }

  // ---- The invariant of the traversal ----

  /**
   * `processed` are the ids whose children have all been found; the stack holds the others. A found
   * agent has a processed parent, so no agent is found twice.
   */
  ghost predicate Traversal(
    agents: Agents, rank: map<Id, nat>, root: Id, found: seq<ActiveAgent>, stack: seq<Id>, processed: set<Id>)
    requires Ranked(agents, rank)
  {
    && (forall a :: a in found ==>
          a.session in agents && agents[a.session] == a && Under(agents, rank, root, a.session))
    && (forall i, j :: 0 <= i < j < |found| ==> found[i].session != found[j].session)
    && (forall i, j :: 0 <= i < j < |stack| ==> stack[i] != stack[j])
    && (forall id :: id in Ids(found) + {root} <==> id in processed || id in stack)
    && (forall id :: id in stack ==> id !in processed)
    && (forall id :: id in agents && agents[id].parent.Some? ==>
          (id in Ids(found) <==> agents[id].parent.value in processed))
  }

  /** In the middle of processing `current`: the children in `todo` are still to be found. */
  ghost predicate Traversing(
    agents: Agents, rank: map<Id, nat>, root: Id, found: seq<ActiveAgent>, stack: seq<Id>, processed: set<Id>,
    current: Id, todo: set<Id>)
    requires Ranked(agents, rank)
  {
    && (forall a :: a in found ==>
          a.session in agents && agents[a.session] == a && Under(agents, rank, root, a.session))
    && (forall i, j :: 0 <= i < j < |found| ==> found[i].session != found[j].session)
    && (forall i, j :: 0 <= i < j < |stack| ==> stack[i] != stack[j])
    && (forall id :: id in Ids(found) + {root} <==> id in processed + {current} || id in stack)
    && (forall id :: id in stack ==> id !in processed && id != current)
    && current !in processed
    && (forall id :: id in agents && agents[id].parent.Some? ==>
          (id in Ids(found) <==>
            agents[id].parent.value in processed || (agents[id].parent.value == current && id !in todo)))
  }

  lemma Discover(
    agents: Agents, rank: map<Id, nat>, root: Id, found: seq<ActiveAgent>, stack: seq<Id>, processed: set<Id>,
    current: Id, todo: set<Id>, id: Id)
    requires Ranked(agents, rank) && Traversing(agents, rank, root, found, stack, processed, current, todo)
    requires id in todo && id in agents && agents[id].parent == Some(current)
    ensures Traversing(agents, rank, root, found + [agents[id]], stack + [id], processed, current, todo - {id})
  {
    var found' := found + [agents[id]];
    assert current == root || current in Ids(found);
    assert Under(agents, rank, root, id);
    NoCycle(agents, rank, root);
    assert Ids(found') == Ids(found) + {id} by {
      assert agents[id] in found';
    }
    assert id !in Ids(found) && id != root;
    assert forall a :: a in found ==> a.session in Ids(found);
  }

  lemma TraversalStart(agents: Agents, rank: map<Id, nat>, root: Id)
    requires Ranked(agents, rank)
    ensures Traversal(agents, rank, root, [], [root], {})
  {
  }

  lemma Pop(agents: Agents, rank: map<Id, nat>, root: Id, found: seq<ActiveAgent>, stack: seq<Id>, processed: set<Id>)
    requires Ranked(agents, rank) && stack != [] && Traversal(agents, rank, root, found, stack, processed)
    ensures Traversing(agents, rank, root, found, stack[..|stack| - 1], processed, stack[|stack| - 1], agents.Keys)
  {
    var rest, current := stack[..|stack| - 1], stack[|stack| - 1];
    assert forall id :: id in stack <==> id in rest || id == current;
  }

  lemma Skip(
    agents: Agents, rank: map<Id, nat>, root: Id, found: seq<ActiveAgent>, stack: seq<Id>, processed: set<Id>,
    current: Id, todo: set<Id>, id: Id)
    requires Ranked(agents, rank) && Traversing(agents, rank, root, found, stack, processed, current, todo)
    requires id in todo && id in agents && agents[id].parent != Some(current)
    ensures Traversing(agents, rank, root, found, stack, processed, current, todo - {id})
  {
  }

  lemma Finish(
    agents: Agents, rank: map<Id, nat>, root: Id, found: seq<ActiveAgent>, stack: seq<Id>, processed: set<Id>,
    current: Id)
    requires Ranked(agents, rank) && Traversing(agents, rank, root, found, stack, processed, current, {})
    ensures Traversal(agents, rank, root, found, stack, processed + {current})
  {
  }

  /** Finding more leaves fewer to find. */
  lemma Progress(
    agents: Agents, rank: map<Id, nat>, root: Id, before: seq<ActiveAgent>, found: seq<ActiveAgent>,
    stack: seq<Id>, processed: set<Id>)
    requires Ranked(agents, rank) && Traversal(agents, rank, root, found, stack, processed) && before <= found
    ensures agents.Keys - Ids(found) <= agents.Keys - Ids(before)
    ensures before != found ==> agents.Keys - Ids(found) < agents.Keys - Ids(before)
  {
    if before != found {
      var a := found[|before|];
      assert a in found && a.session in Ids(found);
      assert a.session !in Ids(before);
    }
  }

  lemma TraversalDone(agents: Agents, rank: map<Id, nat>, root: Id, found: seq<ActiveAgent>, processed: set<Id>)
    requires Ranked(agents, rank) && Traversal(agents, rank, root, found, [], processed)
    ensures forall i, j :: 0 <= i < j < |found| ==> found[i].session != found[j].session
    ensures forall a :: a in found ==> a.session in agents && agents[a.session] == a
    ensures forall id :: id in Ids(found) <==> Under(agents, rank, root, id)
  {
    forall id | Under(agents, rank, root, id)
      ensures id in Ids(found)
    {
      ClosedHasAll(agents, rank, root, Ids(found), id);
    }
  }
}
