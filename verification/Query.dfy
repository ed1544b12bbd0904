/** Call-path search and impact analysis (crates/visp-codegraph/src/query.rs). */
module Query {
  import opened Collections
  import opened Graph
  import opened Tables
  import opened CallGraph
  import opened Exploration
  import opened Storage

  datatype QueryError = IndexBuilding | NotFound(name: string) | Ambiguous(name: string, matches: nat)

  datatype Result<T> = Ok(value: T) | Err(error: QueryError)

  datatype TraceHop = TraceHop(name: string, file: string, line: nat, signature: Option<string>)

  datatype ImpactSymbol = ImpactSymbol(name: string, file: string, depth: nat)

  datatype ImpactResult = ImpactResult(name: string, callers: seq<ImpactSymbol>, callees: seq<ImpactSymbol>)

  function HopOf(s: Symbol): TraceHop {
    TraceHop(s.name, s.file, s.line, s.signature)
  }

  function HopAt(t: Tables, id: nat): TraceHop {
    if id in t.symbols then HopOf(t.symbols[id]) else TraceHop("", "", 0, None)
  }

  function Hops(t: Tables, p: seq<nat>): seq<TraceHop> {
    Map(p, (id: nat) => HopAt(t, id))
  }

  lemma HopsAppend(t: Tables, p: seq<nat>, id: nat)
    ensures Hops(t, p + [id]) == Hops(t, p) + [HopAt(t, id)]
  {
  }

  function Named(t: Tables, name: string): set<nat> {
    set id | id in t.symbols && t.symbols[id].name == name
  }

  /** The queries in terms of symbols: which edges a row stands for. */
  lemma CalleeRowMeans(t: Tables, a: nat, row: (string, string)) returns (b: nat)
    requires CalleeRow(t, a, row) && a in t.symbols
    ensures Calls(t, a, b) && row == (t.symbols[b].name, t.symbols[b].file)
  {
    var e :| e in t.edges && e.source == a && e.target.Some? && e.target.value in t.symbols
             && row == NameAndFile(t.symbols, e.target.value);
    b := e.target.value;
  }

  lemma CalleeListed(t: Tables, a: nat, b: nat)
    requires Calls(t, a, b)
    ensures CalleeRow(t, a, (t.symbols[b].name, t.symbols[b].file))
  {
  }

  lemma CallerRowMeans(t: Tables, b: nat, row: (string, string)) returns (a: nat)
    requires CallerRow(t, b, row) && b in t.symbols
    ensures Calls(t, a, b) && row == (t.symbols[a].name, t.symbols[a].file)
  {
    var e :| e in t.edges && e.target == Some(b) && e.source in t.symbols && row == NameAndFile(t.symbols, e.source);
    a := e.source;
  }

  lemma CallerListed(t: Tables, a: nat, b: nat)
    requires Calls(t, a, b)
    ensures CallerRow(t, b, (t.symbols[a].name, t.symbols[a].file))
  {
  }

  // ---- The queue of the breadth-first search ----

  type Pending = (nat, seq<TraceHop>)

  function QueueIds(queue: seq<Pending>): set<nat> {
    set q | q in queue :: q.0
  }

  /** Queued symbols are visited, carry the hops of their path, and lie on two levels, in order. */
  ghost predicate Queued(t: Tables, queue: seq<Pending>, paths: map<nat, seq<nat>>, level: nat) {
    && (forall i :: 0 <= i < |queue| ==>
          queue[i].0 in paths && queue[i].1 == Hops(t, paths[queue[i].0])
          && level <= |paths[queue[i].0]| <= level + 1)
    && (forall i, j :: 0 <= i < j < |queue| ==>
          queue[i].0 != queue[j].0 && |paths[queue[i].0]| <= |paths[queue[j].0]|)
  }

  lemma QueuedPush(t: Tables, queue: seq<Pending>, paths: map<nat, seq<nat>>, level: nat, w: nat, p: seq<nat>)
    requires Queued(t, queue, paths, level) && w !in paths && |p| == level + 1
    ensures Queued(t, queue + [(w, Hops(t, p))], paths[w := p], level)
  {
    hide Hops;
  }

  /** The state of the search: finished symbols, the one being expanded, and the queue. */
  ghost predicate Search(
    t: Tables, a: nat, b: nat, queue: seq<Pending>, current: set<nat>,
    visited: set<nat>, paths: map<nat, seq<nat>>, done: set<nat>, level: nat)
  {
    && Tree(t, a, visited, paths)
    && Finished(t, done, visited, paths)
    && b !in visited
    && visited == done + current + QueueIds(queue)
    && Queued(t, queue, paths, level)
    && (forall v :: v in done ==> |paths[v]| <= level)
    && (forall v :: v in current ==> |paths[v]| == level)
  }

  lemma SearchStart(t: Tables, a: nat, b: nat)
    requires a in t.symbols && a != b
    ensures Search(t, a, b, [(a, [HopOf(t.symbols[a])])], {}, {a}, map[a := [a]], {}, 1)
  {
    assert Hops(t, [a]) == [HopOf(t.symbols[a])];
  }

  lemma QueueIdsConcat(a: seq<Pending>, b: seq<Pending>)
    ensures QueueIds(a + b) == QueueIds(a) + QueueIds(b)
    ensures |b| == 1 ==> QueueIds(b) == {b[0].0}
    ensures |a| == 1 ==> QueueIds(a) == {a[0].0}
  {
  }

  lemma SearchPop(
    t: Tables, a: nat, b: nat, queue: seq<Pending>, visited: set<nat>, paths: map<nat, seq<nat>>, done: set<nat>,
    level: nat)
    requires queue != [] && Search(t, a, b, queue, {}, visited, paths, done, level)
    ensures Search(t, a, b, queue[1..], {queue[0].0}, visited, paths, done, |paths[queue[0].0]|)
  {
    hide QueueIds, Tree, Finished;
    QueueIdsConcat([queue[0]], queue[1..]);
    assert queue == [queue[0]] + queue[1..];
  }

  lemma SearchPush(
    t: Tables, a: nat, b: nat, queue: seq<Pending>, v: nat, w: nat,
    visited: set<nat>, paths: map<nat, seq<nat>>, done: set<nat>, level: nat)
    requires Search(t, a, b, queue, {v}, visited, paths, done, level)
    requires Calls(t, v, w) && w !in visited && w != b
    ensures Search(t, a, b, queue + [(w, Hops(t, paths[v] + [w]))], {v}, visited + {w}, paths[w := paths[v] + [w]],
      done, level)
  {
    hide Tree, Finished, Queued, QueueIds, Hops, Calls;
    TreeKeys(t, a, visited, paths);
    var p := paths[v] + [w];
    TreeGrows(t, a, visited, paths, v, w);
    FinishedGrows(t, done, visited, paths, w, p);
    QueuedPush(t, queue, paths, level, w, p);
    QueueIdsConcat(queue, [(w, Hops(t, p))]);
    assert visited + {w} == done + {v} + (QueueIds(queue) + {w});
  }

  lemma TreeKeys(t: Tables, a: nat, visited: set<nat>, paths: map<nat, seq<nat>>)
    requires Tree(t, a, visited, paths)
    ensures paths.Keys == visited
  {
  }

  lemma SearchFinish(
    t: Tables, a: nat, b: nat, queue: seq<Pending>, v: nat,
    visited: set<nat>, paths: map<nat, seq<nat>>, done: set<nat>, level: nat)
    requires Search(t, a, b, queue, {v}, visited, paths, done, level)
    requires forall w :: Calls(t, v, w) ==> w in visited
    ensures Search(t, a, b, queue, {}, visited, paths, done + {v}, level)
  {
    forall w | w in visited
      ensures |paths[w]| <= level + 1
    {
      if w in QueueIds(queue) {
        var i :| 0 <= i < |queue| && queue[i].0 == w;
      }
    }
  }

  /** Reaching `b` from the symbol being expanded gives a shortest path. */
  lemma SearchFound(
    t: Tables, a: nat, b: nat, queue: seq<Pending>, v: nat,
    visited: set<nat>, paths: map<nat, seq<nat>>, done: set<nat>, level: nat)
    requires Search(t, a, b, queue, {v}, visited, paths, done, level) && Calls(t, v, b)
    ensures Shortest(t, paths[v] + [b], a, b)
  {
    forall u | u in QueueIds(queue)
      ensures level <= |paths[u]|
    {
      var i :| 0 <= i < |queue| && queue[i].0 == u;
    }
    FoundShortest(t, a, visited, paths, done, v, b);
  }

  /** A search that runs dry has seen everything reachable. */
  lemma SearchExhausted(
    t: Tables, a: nat, b: nat, visited: set<nat>, paths: map<nat, seq<nat>>, done: set<nat>, level: nat)
    requires Search(t, a, b, [], {}, visited, paths, done, level)
    ensures forall q :: !Path(t, q, a, b)
  {
    assert visited == done;
    forall q ensures !Path(t, q, a, b) {
      if Path(t, q, a, b) {
        AllFinished(t, a, visited, paths, q, b);
        assert false;
      }
    }
  }

  /** One hop for each symbol of the path: its name, its file, its line and its signature. */
  ghost predicate ShowsPath(t: Tables, p: seq<nat>, hops: seq<TraceHop>) {
    && |hops| == |p|
    && forall i :: 0 <= i < |p| ==>
        && p[i] in t.symbols
        && hops[i].name == t.symbols[p[i]].name
        && hops[i].file == t.symbols[p[i]].file
        && hops[i].line == t.symbols[p[i]].line
        && hops[i].signature == t.symbols[p[i]].signature
  }

  /** The answer of `trace` for two symbols: it shows a shortest path, or nothing if there is no path. */
  ghost predicate TraceAnswer(t: Tables, a: nat, b: nat, hops: seq<TraceHop>) {
    if hops == [] then forall q :: !Path(t, q, a, b)
    else exists p :: Shortest(t, p, a, b) && ShowsPath(t, p, hops)
  }

  lemma HopsShowPath(t: Tables, p: seq<nat>, a: nat, b: nat)
    requires Shortest(t, p, a, b) && a in t.symbols
    ensures ShowsPath(t, p, Hops(t, p)) && TraceAnswer(t, a, b, Hops(t, p))
  {
    forall i | 0 <= i < |p|
      ensures p[i] in t.symbols
    {
      if i > 0 {
        assert Calls(t, p[i - 1], p[i - 1 + 1]);
      }
    }
  }

  /** A symbol is found from itself at once. */
  lemma SelfAnswer(t: Tables, a: nat)
    requires a in t.symbols
    ensures TraceAnswer(t, a, a, [HopOf(t.symbols[a])])
  {
    assert Shortest(t, [a], a, a);
    HopsShowPath(t, [a], a, a);
    assert Hops(t, [a]) == [HopOf(t.symbols[a])];
  }

  /** The first hop shows the one symbol, the last the other. */
  lemma AnswerEnds(t: Tables, a: nat, b: nat, hops: seq<TraceHop>)
    requires TraceAnswer(t, a, b, hops) && hops != [] && a in t.symbols && b in t.symbols
    ensures hops[0].name == t.symbols[a].name && hops[|hops| - 1].name == t.symbols[b].name
  {
    var p :| Shortest(t, p, a, b) && ShowsPath(t, p, hops);
    assert p[0] == a && p[|p| - 1] == b;
  }

  // ---- What the depth-first expansion finds ----

  /**
   * `result` lists the symbols `ids`, each once: exactly what was added to `visited`. Each one has a
   * chain from `x` of the length its depth says, through symbols that were not visited before.
   */
  ghost predicate Expansion(
    t: Tables, toCallers: bool, x: nat, depth: nat, maxDepth: nat, visited: set<nat>,
    result: seq<ImpactSymbol>, ids: seq<nat>, visited': set<nat>)
  {
    && visited <= visited' <= t.symbols.Keys
    && |ids| == |result|
    && (forall i :: 0 <= i < |ids| ==> Listed(t, toCallers, x, depth, maxDepth, visited, result[i], ids[i]))
    && (forall i, j :: 0 <= i < j < |ids| ==> ids[i] != ids[j])
    && (forall v :: v in visited' <==> v in visited || v in ids)
  }

  ghost predicate Listed(
    t: Tables, toCallers: bool, x: nat, depth: nat, maxDepth: nat, visited: set<nat>, entry: ImpactSymbol, id: nat)
  {
    && id in t.symbols && id !in visited
    && entry.name == t.symbols[id].name && entry.file == t.symbols[id].file
    && depth <= entry.depth <= maxDepth
    && Chain(t, toCallers, visited, x, id, entry.depth - depth + 1)
  }

  lemma ExpansionStep(
    t: Tables, toCallers: bool, x: nat, depth: nat, maxDepth: nat, visited: set<nat>,
    result: seq<ImpactSymbol>, ids: seq<nat>, v1: set<nat>, s: nat, sub: seq<ImpactSymbol>, subIds: seq<nat>,
    v2: set<nat>)
    requires Expansion(t, toCallers, x, depth, maxDepth, visited, result, ids, v1) && depth <= maxDepth
    requires Step(t, toCallers, x, s) && s in t.symbols && s !in v1
    requires Expansion(t, toCallers, s, depth + 1, maxDepth, v1 + {s}, sub, subIds, v2)
    ensures Expansion(t, toCallers, x, depth, maxDepth, visited,
                      result + [ImpactSymbol(t.symbols[s].name, t.symbols[s].file, depth)] + sub,
                      ids + [s] + subIds, v2)
  {
    hide Step;
    var entry := ImpactSymbol(t.symbols[s].name, t.symbols[s].file, depth);
    assert Chain(t, toCallers, visited, s, s, 0) && Chain(t, toCallers, visited, x, s, 1);
    assert Listed(t, toCallers, x, depth, maxDepth, visited, entry, s);
    forall i | 0 <= i < |subIds|
      ensures Listed(t, toCallers, x, depth, maxDepth, visited, sub[i], subIds[i])
    {
      assert Listed(t, toCallers, s, depth + 1, maxDepth, v1 + {s}, sub[i], subIds[i]);
      ChainWeaken(t, toCallers, v1 + {s}, visited, s, subIds[i], sub[i].depth - depth);
    }
    forall i | 0 <= i < |subIds|
      ensures subIds[i] !in v1 && subIds[i] != s
    {
      assert Listed(t, toCallers, s, depth + 1, maxDepth, v1 + {s}, sub[i], subIds[i]);
    }
    assert forall i :: 0 <= i < |ids| ==> ids[i] in v1;
    hide Listed;
  }

  // ---- Impact analysis, exactly ----

  /** All symbols but `x` itself reachable from `x` in one direction without entering `avoided`. */
  ghost function Reachable(t: Tables, toCallers: bool, avoided: set<nat>, x: nat): set<nat> {
    set v | v in t.symbols && v != x && Reaches(t, toCallers, avoided, x, v)
  }

  lemma ExpansionIsSound(
    t: Tables, toCallers: bool, x: nat, maxDepth: nat, visited: set<nat>,
    result: seq<ImpactSymbol>, ids: seq<nat>, visited': set<nat>, v: nat)
    requires x in visited && Expansion(t, toCallers, x, 1, maxDepth, visited, result, ids, visited') && v in ids
    ensures v in Reachable(t, toCallers, visited, x)
  {
    hide Chain;
    var i :| 0 <= i < |ids| && ids[i] == v;
    assert Listed(t, toCallers, x, 1, maxDepth, visited, result[i], ids[i]);
  }

  lemma ClosedIsComplete(t: Tables, toCallers: bool, x: nat, visited: set<nat>, visited': set<nat>, v: nat)
    requires x in visited && visited <= visited' && ClosedIn(t, toCallers, visited' - visited + {x}, visited')
    requires v in Reachable(t, toCallers, visited, x)
    ensures v in visited' - visited
  {
    hide Chain, ClosedIn;
    var n :| Chain(t, toCallers, visited, x, v, n);
    var s := visited' - visited + {x};
    assert s + visited == visited';
    StaysInside(t, toCallers, s, visited, x, v, n);
  }

  /** An expansion that was never cut off by the depth lists exactly the reachable symbols. */
  lemma ExpansionIsReachable(
    t: Tables, toCallers: bool, x: nat, maxDepth: nat, visited: set<nat>,
    result: seq<ImpactSymbol>, ids: seq<nat>, visited': set<nat>)
    requires x in visited && Expansion(t, toCallers, x, 1, maxDepth, visited, result, ids, visited')
    requires ClosedIn(t, toCallers, visited' - visited + {x}, visited')
    ensures (set v | v in ids) == Reachable(t, toCallers, visited, x)
  {
    hide Reachable, Chain, ClosedIn, Listed;
    forall v | v in ids
      ensures v in Reachable(t, toCallers, visited, x)
    {
      ExpansionIsSound(t, toCallers, x, maxDepth, visited, result, ids, visited', v);
    }
    forall v | v in Reachable(t, toCallers, visited, x)
      ensures v in ids
    {
      ClosedIsComplete(t, toCallers, x, visited, visited', v);
    }
  }

  /** Avoiding the start makes no difference to what is reachable besides it. */
  lemma AvoidStart(t: Tables, toCallers: bool, x: nat, visited': set<nat>)
    requires x in visited' && visited' == Reachable(t, toCallers, {x}, x) + {x}
      && ClosedIn(t, toCallers, visited', visited')
    ensures Reachable(t, toCallers, {}, x) == Reachable(t, toCallers, {x}, x)
  {
    forall v | v in Reachable(t, toCallers, {x}, x)
      ensures v in Reachable(t, toCallers, {}, x)
    {
      var n :| Chain(t, toCallers, {x}, x, v, n);
      ChainWeaken(t, toCallers, {x}, {}, x, v, n);
    }
    forall v | v in Reachable(t, toCallers, {}, x)
      ensures v in Reachable(t, toCallers, {x}, x)
    {
      var n :| Chain(t, toCallers, {}, x, v, n);
      assert visited' + {} == visited';
      StaysInside(t, toCallers, visited', {}, x, v, n);
    }
  }

  /**
   * The callee list leaves out what is only reachable through callers. It is the full set of
   * transitive callees exactly when no other symbol is both caller and callee of the target.
   */
  lemma CalleesCompleteIff(t: Tables, x: nat, callers: set<nat>, callees: set<nat>)
    requires x !in callers && callers <= t.symbols.Keys && callees == Reachable(t, false, callers + {x}, x)
    requires ClosedIn(t, false, callees + {x}, callees + callers + {x})
    ensures callees == Reachable(t, false, {}, x) <==> callers !! Reachable(t, false, {}, x)
  {
    CalleesAvoidCallers(t, x, callers);
    if callers !! Reachable(t, false, {}, x) {
      NoSharedNoneMissed(t, x, callers, callees);
    }
  }

  lemma CalleesAvoidCallers(t: Tables, x: nat, callers: set<nat>)
    ensures Reachable(t, false, callers + {x}, x) <= Reachable(t, false, {}, x)
    ensures Reachable(t, false, callers + {x}, x) !! callers
  {
    hide Chain;
    forall v | v in Reachable(t, false, callers + {x}, x)
      ensures v in Reachable(t, false, {}, x) && v !in callers
    {
      var n :| Chain(t, false, callers + {x}, x, v, n);
      ChainWeaken(t, false, callers + {x}, {}, x, v, n);
      ChainEndsOutside(t, false, callers + {x}, x, v, n);
    }
  }

  lemma NoSharedNoneMissed(t: Tables, x: nat, callers: set<nat>, callees: set<nat>)
    requires x !in callers && callees <= Reachable(t, false, {}, x) && callers !! Reachable(t, false, {}, x)
    requires ClosedIn(t, false, callees + {x}, callees + callers + {x})
    ensures Reachable(t, false, {}, x) <= callees
  {
    hide Chain;
    var s := callees + {x};
    forall a, b | a in s && Step(t, false, a, b)
      ensures b in s
    {
      if b in callers {
        ReachStep(t, false, x, a, b);
      }
    }
    hide Step;
    forall v | v in Reachable(t, false, {}, x)
      ensures v in callees
    {
      var n :| Chain(t, false, {}, x, v, n);
      assert s + {} == s;
      StaysInside(t, false, s, {}, x, v, n);
    }
  }

  // ---- The listing in terms of ids ----

  /** The listed symbols with their depths. */
  function Pairs(ids: seq<nat>, result: seq<ImpactSymbol>): seq<(nat, nat)> {
    seq(if |ids| <= |result| then |ids| else |result|,
      i requires 0 <= i < |ids| && i < |result| => (ids[i], result[i].depth))
  }

  lemma PairsNone()
    ensures Pairs([], []) == []
  {
  }

  lemma PairsJoin(
    ids: seq<nat>, result: seq<ImpactSymbol>, id: nat, entry: ImpactSymbol, subIds: seq<nat>, sub: seq<ImpactSymbol>)
    requires |ids| == |result| && |subIds| == |sub|
    ensures Pairs(ids + [id] + subIds, result + [entry] + sub)
      == Pairs(ids, result) + [(id, entry.depth)] + Pairs(subIds, sub)
  {
  }

  lemma PairsNames(ids: seq<nat>, result: seq<ImpactSymbol>)
    requires |ids| == |result|
    ensures Names(Pairs(ids, result)) == set v | v in ids
  {
    var pairs := Pairs(ids, result);
    forall v | v in ids
      ensures v in Names(pairs)
    {
      var i :| 0 <= i < |ids| && ids[i] == v;
      assert pairs[i] in pairs;
    }
  }

  lemma ListedAreSeen(
    t: Tables, toCallers: bool, x: nat, depth: nat, maxDepth: nat, visited: set<nat>,
    result: seq<ImpactSymbol>, ids: seq<nat>, visited': set<nat>)
    requires Expansion(t, toCallers, x, depth, maxDepth, visited, result, ids, visited')
    ensures |ids| == |result| && Names(Pairs(ids, result)) <= visited'
  {
    PairsNames(ids, result);
  }

  lemma ListedAreFresh(
    t: Tables, toCallers: bool, x: nat, depth: nat, maxDepth: nat, visited: set<nat>,
    result: seq<ImpactSymbol>, ids: seq<nat>, visited': set<nat>)
    requires Expansion(t, toCallers, x, depth, maxDepth, visited, result, ids, visited')
    ensures |ids| == |result| && Names(Pairs(ids, result)) !! visited
  {
    PairsNames(ids, result);
    hide Chain;
    forall v | v in ids
      ensures v !in visited
    {
      var i :| 0 <= i < |ids| && ids[i] == v;
      assert Listed(t, toCallers, x, depth, maxDepth, visited, result[i], ids[i]);
    }
  }

  /** A new neighbour is listed, and below it what its own expansion lists. */
  lemma ListingGrows(
    t: Tables, toCallers: bool, rows: RowOrder, x: nat, ns: seq<nat>, k: nat, depth: nat, maxDepth: nat,
    visited: set<nat>, result: seq<ImpactSymbol>, ids: seq<nat>, seen: set<nat>,
    subRows: RowOrder, sub: seq<ImpactSymbol>, subIds: seq<nat>, all: set<nat>, entry: ImpactSymbol)
    requires Expansion(t, toCallers, x, depth, maxDepth, visited, result, ids, seen) && x in seen
    requires Explored(t, toCallers, rows, x, ns, k, depth, maxDepth, visited, Pairs(ids, result), seen)
    requires k < |ns| && ns[k] !in seen && entry.depth == depth
    requires Expansion(t, toCallers, ns[k], depth + 1, maxDepth, seen + {ns[k]}, sub, subIds, all)
    requires Expanded(t, toCallers, subRows, ns[k], depth + 1, maxDepth, seen + {ns[k]}, Pairs(subIds, sub), all)
    ensures Explored(t, toCallers, rows + subRows, x, ns, k + 1, depth, maxDepth, visited,
                     Pairs(ids + [ns[k]] + subIds, result + [entry] + sub), all)
  {
    hide *;
    ListedAreSeen(t, toCallers, x, depth, maxDepth, visited, result, ids, seen);
    ListedAreFresh(t, toCallers, ns[k], depth + 1, maxDepth, seen + {ns[k]}, sub, subIds, all);
    ExploredMore(t, toCallers, rows, x, ns, k, depth, maxDepth, visited, Pairs(ids, result), seen,
                 subRows, Pairs(subIds, sub), all);
    PairsJoin(ids, result, ns[k], entry, subIds, sub);
  }

  /** The symbols behind the rows of a query. */
  lemma NeighborIds(t: Tables, toCallers: bool, x: nat, rows: seq<(string, string)>) returns (ns: seq<nat>)
    requires SymbolsOk(t) && x in t.symbols
    requires forall row :: row in rows <==> if toCallers then CallerRow(t, x, row) else CalleeRow(t, x, row)
    ensures |ns| == |rows|
    ensures forall k :: 0 <= k < |rows| ==>
              ns[k] in t.symbols && rows[k] == (t.symbols[ns[k]].name, t.symbols[ns[k]].file)
    ensures forall y :: y in ns <==> Step(t, toCallers, x, y)
  {
    hide CallerRow, CalleeRow, Step;
    ns := [];
    for k := 0 to |rows|
      invariant |ns| == k
      invariant forall l :: 0 <= l < k ==>
                  && ns[l] in t.symbols && rows[l] == (t.symbols[ns[l]].name, t.symbols[ns[l]].file)
                  && Step(t, toCallers, x, ns[l])
    {
      assert rows[k] in rows;
      var y := NeighborMeans(t, toCallers, x, rows[k]);
      ns := ns + [y];
    }
    forall y | Step(t, toCallers, x, y)
      ensures y in ns
    {
      NeighborListed(t, toCallers, x, y);
      var k :| 0 <= k < |rows| && rows[k] == (t.symbols[y].name, t.symbols[y].file);
      UniqueRow(t, ns[k], y);
    }
  }

  lemma UniqueRow(t: Tables, a: nat, b: nat)
    requires SymbolsOk(t) && a in t.symbols && b in t.symbols
    requires t.symbols[a].name == t.symbols[b].name && t.symbols[a].file == t.symbols[b].file
    ensures a == b
  {
  }

  class QueryEngine {
    const store: Store
    var isBuilding: bool

    constructor (store: Store)
      ensures this.store == store && !isBuilding
    {
      this.store := store;
      isBuilding := false;
    }

    method FindSymbolByNameAndFile(name: string, file: string) returns (r: Option<Symbol>)
      requires SymbolsOk(store.Contents())
      ensures r.Some? ==> r.value.id in store.symbols && store.symbols[r.value.id] == r.value
                          && r.value.name == name && r.value.file == file
      ensures r.None? ==> forall id :: id in store.symbols ==>
                !(store.symbols[id].name == name && store.symbols[id].file == file)
    {
      var symbols := store.GetSymbolsByName(name);
      for i := 0 to |symbols|
        invariant forall k :: 0 <= k < i ==> symbols[k].file != file
      {
        if symbols[i].file == file {
          assert symbols[i] in symbols;
          return Some(symbols[i]);
        }
      }
      return None;
    }

    /**
     * Expands one symbol: its callees not seen before are queued with their paths, unless one of
     * them has the name searched for.
     */
    method Expand(
      current: nat, path: seq<TraceHop>, toName: string, visited: set<nat>, queue: seq<Pending>,
      ghost a: nat, ghost b: nat, ghost paths: map<nat, seq<nat>>, ghost done: set<nat>, ghost level: nat)
      returns (answer: seq<TraceHop>, visited': set<nat>, queue': seq<Pending>, ghost paths': map<nat, seq<nat>>)
      requires SymbolsOk(store.Contents()) && Named(store.Contents(), toName) == {b}
      requires Search(store.Contents(), a, b, queue, {current}, visited, paths, done, level)
      requires current in paths && path == Hops(store.Contents(), paths[current]) && a in store.symbols
      ensures answer != [] ==> TraceAnswer(store.Contents(), a, b, answer)
      ensures answer == [] ==> Search(store.Contents(), a, b, queue', {}, visited', paths', done + {current}, level)
      ensures visited <= visited' && (visited' == visited ==> queue' == queue)
    {
      hide Search, Hops, Shortest, SymbolsOk, Named, CalleeRow, Selects, ShowsPath, TraceAnswer;
      ghost var t := store.Contents();
      visited', queue', paths' := visited, queue, paths;
      SearchFacts(t, a, b, queue, {current}, visited, paths, done, level);
      var callees := store.GetCallees(current);
      for k := 0 to |callees|
        invariant Search(t, a, b, queue', {current}, visited', paths', done, level)
        invariant current in paths' && path == Hops(t, paths'[current])
        invariant visited <= visited' && (visited' == visited ==> queue' == queue)
        invariant forall l, w ::
                    0 <= l < k && w in t.symbols && callees[l] == (t.symbols[w].name, t.symbols[w].file) ==>
                      w in visited'
      {
        assert callees[k] in callees;
        ghost var w := CalleeRowMeans(t, current, callees[k]);
        var found := FindSymbolByNameAndFile(callees[k].0, callees[k].1);
        FoundIs(t, w, callees[k], found);
        OnlySymbol(t, w, callees[k]);
        if found.value.id !in visited' {
          SearchFacts(t, a, b, queue', {current}, visited', paths', done, level);
          HopsAppend(t, paths'[current], w);
          var extended := path + [HopOf(found.value)];
          if callees[k].0 == toName {
            NamedOnly(t, toName, b, w);
            SearchFound(t, a, b, queue', current, visited', paths', done, level);
            HopsShowPath(t, paths'[current] + [b], a, b);
            return extended, visited', queue', paths';
          }
          NamedOnly(t, toName, b, w);
          SearchPush(t, a, b, queue', current, w, visited', paths', done, level);
          visited' := visited' + {found.value.id};
          queue' := queue' + [(found.value.id, extended)];
          paths' := paths'[w := paths'[current] + [w]];
        }
      }
      forall w | Calls(t, current, w)
        ensures w in visited'
      {
        CalleeListed(t, current, w);
        assert (t.symbols[w].name, t.symbols[w].file) in callees;
      }
      SearchFinish(t, a, b, queue', current, visited', paths', done, level);
      answer := [];
    }

    /** The breadth-first search from one symbol for another of a different name. */
    method BreadthFirst(from: Symbol, toName: string, ghost b: nat) returns (hops: seq<TraceHop>)
      requires SymbolsOk(store.Contents())
      requires from.id in store.symbols && store.symbols[from.id] == from && from.name != toName
      requires Named(store.Contents(), toName) == {b}
      ensures TraceAnswer(store.Contents(), from.id, b, hops)
    {
      hide Search, Hops, Shortest, ShowsPath;
      ghost var t := store.Contents();
      ghost var a := from.id;
      var visited: set<nat> := {from.id};
      var queue: seq<Pending> := [(from.id, [HopOf(from)])];
      ghost var paths: map<nat, seq<nat>> := map[a := [a]];
      ghost var done: set<nat> := {};
      ghost var level: nat := 1;
      assert b in Named(t, toName);
      SearchStart(t, a, b);
      while queue != []
        invariant Search(t, a, b, queue, {}, visited, paths, done, level)
        decreases t.symbols.Keys - visited, |queue|
      {
        SearchFacts(t, a, b, queue, {}, visited, paths, done, level);
        SearchPop(t, a, b, queue, visited, paths, done, level);
        level := |paths[queue[0].0]|;
        ghost var seen := visited;
        ghost var current := queue[0].0;
        hops, visited, queue, paths :=
          Expand(queue[0].0, queue[0].1, toName, visited, queue[1..], a, b, paths, done, level);
        if hops != [] {
          return;
        }
        done := done + {current};
        SearchFacts(t, a, b, queue, {}, visited, paths, done, level);
        assert visited == seen || t.symbols.Keys - visited < t.symbols.Keys - seen;
      }
      SearchExhausted(t, a, b, visited, paths, done, level);
      hops := [];
    }

    /** Lists callers or callees of a symbol, each followed by its own, skipping what was seen. */
    method ExpandImpactDir(symId: nat, isCaller: bool, depth: nat, maxDepth: nat, visited: set<nat>)
      returns (result: seq<ImpactSymbol>, visited': set<nat>, ghost ids: seq<nat>, ghost rows: RowOrder)
      requires SymbolsOk(store.Contents()) && symId in visited && visited <= store.symbols.Keys
      ensures Expansion(store.Contents(), isCaller, symId, depth, maxDepth, visited, result, ids, visited')
      ensures |store.symbols| <= maxDepth && depth <= |visited| ==>
                ClosedIn(store.Contents(), isCaller, visited' - visited + {symId}, visited')
      ensures Expanded(store.Contents(), isCaller, rows, symId, depth, maxDepth, visited, Pairs(ids, result), visited')
      decreases maxDepth + 1 - depth
    {
      hide SymbolsOk, Step, ClosedIn, CalleeRow, CallerRow, Selects, Expansion, Expanded, Exploring, Pairs;
      ghost var t := store.Contents();
      result, visited', ids, rows := [], visited, [], map[];
      if depth > maxDepth {
        CutOffEmpty(t, isCaller, symId, depth, maxDepth, visited);
        return;
      }
      var neighbors: seq<(string, string)>;
      if isCaller {
        neighbors := store.GetCallers(symId);
      } else {
        neighbors := store.GetCallees(symId);
      }
      ghost var ns := NeighborIds(t, isCaller, symId, neighbors);
      rows := map[symId := ns];
      ExploringStart(t, isCaller, symId, ns, depth, maxDepth, visited);
      for k := 0 to |neighbors|
        invariant Exploring(t, isCaller, rows, symId, ns, k, depth, maxDepth, visited, result, ids, visited')
      {
        ghost var w := ns[k];
        var found := FindSymbolByNameAndFile(neighbors[k].0, neighbors[k].1);
        FoundIs(t, w, neighbors[k], found);
        if found.value.id !in visited' {
          ghost var seen := visited';
          ghost var subIds: seq<nat>;
          ghost var subRows: RowOrder;
          var sub: seq<ImpactSymbol>;
          ExploringFacts(t, isCaller, rows, symId, ns, k, depth, maxDepth, visited, result, ids, seen);
          sub, visited', subIds, subRows :=
            ExpandImpactDir(found.value.id, isCaller, depth + 1, maxDepth, visited' + {found.value.id});
          ExploringMore(t, isCaller, rows, symId, ns, k, depth, maxDepth, visited, result, ids, seen,
                        subRows, sub, subIds, visited');
          rows := rows + subRows;
          result := result + [ImpactSymbol(neighbors[k].0, neighbors[k].1, depth)] + sub;
          ids := ids + [w] + subIds;
        } else {
          ExploringSkip(t, isCaller, rows, symId, ns, k, depth, maxDepth, visited, result, ids, visited');
        }
      }
      ExploringEnd(t, isCaller, rows, symId, ns, depth, maxDepth, visited, result, ids, visited');
    }

    /**
     * The impact of a symbol: transitive callers and callees up to a depth. The ghost results name
     * the symbols behind the two lists.
     */
    method Impact(symbol: string, depth: nat)
      returns (r: Result<ImpactResult>, ghost callers: seq<nat>, ghost callees: seq<nat>, ghost upRows: RowOrder,
        ghost downRows: RowOrder)
      requires SymbolsOk(store.Contents())
      ensures isBuilding ==> r == Err(IndexBuilding)
      ensures !isBuilding ==> var t := store.Contents(); var targets := Named(t, symbol);
                if targets == {} then r == Err(NotFound(symbol))
                else if |targets| > 1 then r == Err(Ambiguous(symbol, |targets|))
                else r.Ok? && r.value.name == symbol && forall x :: x in targets ==>
                  && ImpactAnswer(t, x, depth, r.value, callers, callees)
                  && ImpactByRows(t, x, depth, r.value, callers, callees, upRows, downRows)
    {
      callers, callees, upRows, downRows := [], [], map[], map[];
      if isBuilding {
        return Err(IndexBuilding), [], [], map[], map[];
      }
      ghost var t := store.Contents();
      var symbols := store.GetSymbolsByName(symbol);
      NamedCount(t, symbol, symbols);
      if symbols == [] {
        return Err(NotFound(symbol)), [], [], map[], map[];
      }
      if |symbols| > 1 {
        return Err(Ambiguous(symbol, |symbols|)), [], [], map[], map[];
      }
      OnlyOne(t, symbol, symbols);
      assert symbols[0] in symbols;
      var x := symbols[0].id;
      var up, down: seq<ImpactSymbol>;
      var visited, all: set<nat>;
      hide SymbolsOk, Expansion, ClosedIn, Reachable, Expanded, Pairs;
      up, visited, callers, upRows := ExpandImpactDir(x, true, 1, depth, {x});
      ExpansionFacts(t, true, x, 1, depth, {x}, up, callers, visited);
      SubsetSize({x}, visited);
      down, all, callees, downRows := ExpandImpactDir(x, false, 1, depth, visited);
      ImpactIsAnswer(t, x, depth, symbols[0].name, up, callers, visited, down, callees, all);
      return Ok(ImpactResult(symbols[0].name, up, down)), callers, callees, upRows, downRows;
    }

    /** The call path between two named symbols; a name with several symbols is refused. */
    method Trace(from: string, target: string) returns (r: Result<seq<TraceHop>>)
      requires SymbolsOk(store.Contents())
      ensures isBuilding ==> r == Err(IndexBuilding)
      ensures !isBuilding ==> var t := store.Contents();
                var froms, targets := Named(t, from), Named(t, target);
                if froms == {} then r == Ok([])
                else if |froms| > 1 then r == Err(Ambiguous(from, |froms|))
                else if targets == {} then r == Ok([])
                else if |targets| > 1 then r == Err(Ambiguous(target, |targets|))
                else r.Ok? && forall a, b :: a in froms && b in targets ==> TraceAnswer(t, a, b, r.value)
      ensures r.Ok? && r.value != [] ==> r.value[0].name == from && r.value[|r.value| - 1].name == target
    {
      hide TraceAnswer;
      if isBuilding {
        return Err(IndexBuilding);
      }
      ghost var t := store.Contents();
      var froms := store.GetSymbolsByName(from);
      NamedCount(t, from, froms);
      if froms == [] {
        return Ok([]);
      }
      if |froms| > 1 {
        return Err(Ambiguous(from, |froms|));
      }
      var targets := store.GetSymbolsByName(target);
      NamedCount(t, target, targets);
      if targets == [] {
        return Ok([]);
      }
      if |targets| > 1 {
        return Err(Ambiguous(target, |targets|));
      }
      assert froms[0] in froms && targets[0] in targets;
      OnlyOne(t, from, froms);
      OnlyOne(t, target, targets);
      if froms[0].name == targets[0].name {
        SelfAnswer(t, froms[0].id);
        return Ok([HopOf(froms[0])]);
      }
      var hops := BreadthFirst(froms[0], targets[0].name, targets[0].id);
      if hops != [] {
        AnswerEnds(t, froms[0].id, targets[0].id, hops);
      }
      return Ok(hops);
    }
  }

  lemma SearchFacts(
    t: Tables, a: nat, b: nat, queue: seq<Pending>, current: set<nat>,
    visited: set<nat>, paths: map<nat, seq<nat>>, done: set<nat>, level: nat)
    requires Search(t, a, b, queue, current, visited, paths, done, level)
    ensures paths.Keys == visited && visited <= t.symbols.Keys
    ensures current <= visited
    ensures queue != [] ==> queue[0].0 in visited && queue[0].1 == Hops(t, paths[queue[0].0])
  {
  }

  lemma FoundIs(t: Tables, w: nat, row: (string, string), found: Option<Symbol>)
    requires SymbolsOk(t) && w in t.symbols && row == (t.symbols[w].name, t.symbols[w].file)
    requires found.Some? ==> found.value.id in t.symbols && t.symbols[found.value.id] == found.value
                             && found.value.name == row.0 && found.value.file == row.1
    requires found.None? ==> forall id :: id in t.symbols ==>
               !(t.symbols[id].name == row.0 && t.symbols[id].file == row.1)
    ensures found == Some(t.symbols[w]) && found.value.id == w
  {
  }

  lemma OnlySymbol(t: Tables, w: nat, row: (string, string))
    requires SymbolsOk(t) && w in t.symbols && row == (t.symbols[w].name, t.symbols[w].file)
    ensures forall v :: v in t.symbols && row == (t.symbols[v].name, t.symbols[v].file) ==> v == w
  {
  }

  lemma NamedOnly(t: Tables, name: string, b: nat, w: nat)
    requires Named(t, name) == {b} && w in t.symbols
    ensures t.symbols[w].name == name <==> w == b
  {
    assert b in Named(t, name);
    assert t.symbols[w].name == name <==> w in Named(t, name);
  }

  lemma ExpansionEmpty(t: Tables, toCallers: bool, x: nat, depth: nat, maxDepth: nat, visited: set<nat>)
    requires visited <= t.symbols.Keys
    ensures Expansion(t, toCallers, x, depth, maxDepth, visited, [], [], visited)
  {
  }

  lemma ExpansionFacts(
    t: Tables, toCallers: bool, x: nat, depth: nat, maxDepth: nat, visited: set<nat>,
    result: seq<ImpactSymbol>, ids: seq<nat>, visited': set<nat>)
    requires Expansion(t, toCallers, x, depth, maxDepth, visited, result, ids, visited')
    ensures visited <= visited' <= t.symbols.Keys
  {
  }

  lemma NeighborMeans(t: Tables, toCallers: bool, x: nat, row: (string, string)) returns (y: nat)
    requires x in t.symbols && (if toCallers then CallerRow(t, x, row) else CalleeRow(t, x, row))
    ensures Step(t, toCallers, x, y) && y in t.symbols && row == (t.symbols[y].name, t.symbols[y].file)
  {
    if toCallers {
      y := CallerRowMeans(t, x, row);
    } else {
      y := CalleeRowMeans(t, x, row);
    }
  }

  lemma NeighborListed(t: Tables, toCallers: bool, x: nat, y: nat)
    requires Step(t, toCallers, x, y)
    ensures y in t.symbols
    ensures var row := (t.symbols[y].name, t.symbols[y].file);
      if toCallers then CallerRow(t, x, row) else CalleeRow(t, x, row)
  {
    if toCallers {
      CallerListed(t, y, x);
    } else {
      CalleeListed(t, x, y);
    }
  }

  lemma {:induction false} SubsetSize(a: set<nat>, b: set<nat>)
    requires a <= b
    ensures |a| <= |b|
  {
    assert b == a + (b - a);
  }

  lemma SubsetGrows(a: set<nat>, b: set<nat>, w: nat)
    requires a <= b && w !in b
    ensures |a| + 1 <= |b + {w}|
  {
    SubsetSize(a, b);
  }

  // ---- The loop over the neighbours ----

  /** After `k` neighbours of `x`. */
  ghost predicate Exploring(
    t: Tables, toCallers: bool, rows: RowOrder, x: nat, ns: seq<nat>, k: nat, depth: nat, maxDepth: nat,
    visited: set<nat>, result: seq<ImpactSymbol>, ids: seq<nat>, seen: set<nat>)
  {
    && Expansion(t, toCallers, x, depth, maxDepth, visited, result, ids, seen)
    && Explored(t, toCallers, rows, x, ns, k, depth, maxDepth, visited, Pairs(ids, result), seen)
    && x in visited && visited <= seen <= t.symbols.Keys
    && (forall l :: 0 <= l < k ==> ns[l] in seen)
    && (|t.symbols| <= maxDepth && depth <= |visited| ==> ClosedIn(t, toCallers, seen - visited, seen))
  }

  lemma CutOffEmpty(t: Tables, toCallers: bool, x: nat, depth: nat, maxDepth: nat, visited: set<nat>)
    requires depth > maxDepth && x in visited && visited <= t.symbols.Keys
    ensures Expansion(t, toCallers, x, depth, maxDepth, visited, [], [], visited)
    ensures |t.symbols| <= maxDepth && depth <= |visited| ==>
              ClosedIn(t, toCallers, visited - visited + {x}, visited)
    ensures Expanded(t, toCallers, map[], x, depth, maxDepth, visited, Pairs([], []), visited)
  {
    hide Expansion, Expanded, Pairs, ClosedIn;
    PairsNone();
    SubsetSize(visited, t.symbols.Keys);
    ExpansionEmpty(t, toCallers, x, depth, maxDepth, visited);
    ExploredCut(t, toCallers, x, depth, maxDepth, visited);
  }

  lemma ExploringStart(t: Tables, toCallers: bool, x: nat, ns: seq<nat>, depth: nat, maxDepth: nat, visited: set<nat>)
    requires depth <= maxDepth && x in visited && visited <= t.symbols.Keys
    requires forall y :: y in ns <==> Step(t, toCallers, x, y)
    ensures Exploring(t, toCallers, map[x := ns], x, ns, 0, depth, maxDepth, visited, [], [], visited)
  {
    hide Expansion, Explored, Pairs, ClosedIn, Step;
    PairsNone();
    ExpansionEmpty(t, toCallers, x, depth, maxDepth, visited);
    ClosedEmpty(t, toCallers, visited);
    ExploredStart(t, toCallers, x, ns, depth, maxDepth, visited);
  }

  lemma ExploringFacts(
    t: Tables, toCallers: bool, rows: RowOrder, x: nat, ns: seq<nat>, k: nat, depth: nat, maxDepth: nat,
    visited: set<nat>, result: seq<ImpactSymbol>, ids: seq<nat>, seen: set<nat>)
    requires Exploring(t, toCallers, rows, x, ns, k, depth, maxDepth, visited, result, ids, seen)
    ensures seen <= t.symbols.Keys
  {
  }

  lemma ExploringSkip(
    t: Tables, toCallers: bool, rows: RowOrder, x: nat, ns: seq<nat>, k: nat, depth: nat, maxDepth: nat,
    visited: set<nat>, result: seq<ImpactSymbol>, ids: seq<nat>, seen: set<nat>)
    requires Exploring(t, toCallers, rows, x, ns, k, depth, maxDepth, visited, result, ids, seen)
    requires k < |ns| && ns[k] in seen
    ensures Exploring(t, toCallers, rows, x, ns, k + 1, depth, maxDepth, visited, result, ids, seen)
  {
    hide Expansion, Explored, Pairs, ClosedIn;
    ExploredSkip(t, toCallers, rows, x, ns, k, depth, maxDepth, visited, Pairs(ids, result), seen);
  }

  lemma ExploringMore(
    t: Tables, toCallers: bool, rows: RowOrder, x: nat, ns: seq<nat>, k: nat, depth: nat, maxDepth: nat,
    visited: set<nat>, result: seq<ImpactSymbol>, ids: seq<nat>, seen: set<nat>,
    subRows: RowOrder, sub: seq<ImpactSymbol>, subIds: seq<nat>, all: set<nat>)
    requires Exploring(t, toCallers, rows, x, ns, k, depth, maxDepth, visited, result, ids, seen) && depth <= maxDepth
    requires k < |ns| && ns[k] !in seen && ns[k] in t.symbols && Step(t, toCallers, x, ns[k])
    requires Expansion(t, toCallers, ns[k], depth + 1, maxDepth, seen + {ns[k]}, sub, subIds, all)
    requires Expanded(t, toCallers, subRows, ns[k], depth + 1, maxDepth, seen + {ns[k]}, Pairs(subIds, sub), all)
    requires |t.symbols| <= maxDepth && depth + 1 <= |seen + {ns[k]}| ==>
               ClosedIn(t, toCallers, all - (seen + {ns[k]}) + {ns[k]}, all)
    ensures var w := ns[k];
            var entry := ImpactSymbol(t.symbols[w].name, t.symbols[w].file, depth);
            Exploring(t, toCallers, rows + subRows, x, ns, k + 1, depth, maxDepth, visited, result + [entry] + sub,
                      ids + [w] + subIds, all)
  {
    hide Expansion, Expanded, Explored, Pairs, ClosedIn, Step;
    var w := ns[k];
    SubsetGrows(visited, seen, w);
    ExpansionStep(t, toCallers, x, depth, maxDepth, visited, result, ids, seen, w, sub, subIds, all);
    ExpansionFacts(t, toCallers, w, depth + 1, maxDepth, seen + {w}, sub, subIds, all);
    if |t.symbols| <= maxDepth && depth <= |visited| {
      ClosedGrows(t, toCallers, visited, seen, w, all);
    }
    ListingGrows(t, toCallers, rows, x, ns, k, depth, maxDepth, visited, result, ids, seen,
                 subRows, sub, subIds, all, ImpactSymbol(t.symbols[w].name, t.symbols[w].file, depth));
  }

  lemma ExploringEnd(
    t: Tables, toCallers: bool, rows: RowOrder, x: nat, ns: seq<nat>, depth: nat, maxDepth: nat,
    visited: set<nat>, result: seq<ImpactSymbol>, ids: seq<nat>, seen: set<nat>)
    requires Exploring(t, toCallers, rows, x, ns, |ns|, depth, maxDepth, visited, result, ids, seen)
    requires forall y :: y in ns <==> Step(t, toCallers, x, y)
    ensures Expansion(t, toCallers, x, depth, maxDepth, visited, result, ids, seen)
    ensures |t.symbols| <= maxDepth && depth <= |visited| ==> ClosedIn(t, toCallers, seen - visited + {x}, seen)
    ensures Expanded(t, toCallers, rows, x, depth, maxDepth, visited, Pairs(ids, result), seen)
  {
    hide Expansion, Explored, Expanded, Pairs, ClosedIn, Step;
    ExploredEnd(t, toCallers, rows, x, ns, depth, maxDepth, visited, Pairs(ids, result), seen);
    ClosedAdd(t, toCallers, seen - visited, x, seen);
  }

  lemma ClosedEmpty(t: Tables, toCallers: bool, visited: set<nat>)
    ensures ClosedIn(t, toCallers, visited - visited, visited)
  {
  }

  lemma ClosedAdd(t: Tables, toCallers: bool, s: set<nat>, x: nat, visited: set<nat>)
    requires forall y :: Step(t, toCallers, x, y) ==> y in visited
    ensures ClosedIn(t, toCallers, s, visited) ==> ClosedIn(t, toCallers, s + {x}, visited)
  {
  }

  lemma ClosedGrows(t: Tables, toCallers: bool, visited: set<nat>, seen: set<nat>, w: nat, visited': set<nat>)
    requires visited <= seen <= visited' && w in visited' && w !in seen
    requires ClosedIn(t, toCallers, seen - visited, seen)
    requires ClosedIn(t, toCallers, visited' - (seen + {w}) + {w}, visited')
    ensures ClosedIn(t, toCallers, visited' - visited, visited')
  {
  }

  lemma {:induction false} ChainEndsOutside(t: Tables, toCallers: bool, avoided: set<nat>, a: nat, b: nat, n: nat)
    requires Chain(t, toCallers, avoided, a, b, n) && a != b
    ensures b !in avoided
    decreases n
  {
    var c :| c !in avoided && Step(t, toCallers, a, c) && Chain(t, toCallers, avoided, c, b, n - 1);
    if c != b {
      ChainEndsOutside(t, toCallers, avoided, c, b, n - 1);
    }
  }

  lemma {:induction false} ChainExtend(t: Tables, toCallers: bool, a: nat, b: nat, c: nat, n: nat)
    requires Chain(t, toCallers, {}, a, b, n) && Step(t, toCallers, b, c)
    ensures Chain(t, toCallers, {}, a, c, n + 1)
    decreases n
  {
    if n == 0 {
      assert Chain(t, toCallers, {}, c, c, 0);
    } else {
      var d :| d !in {} && Step(t, toCallers, a, d) && Chain(t, toCallers, {}, d, b, n - 1);
      ChainExtend(t, toCallers, d, b, c, n - 1);
    }
  }

  lemma ReachStep(t: Tables, toCallers: bool, x: nat, a: nat, b: nat)
    requires a == x || a in Reachable(t, toCallers, {}, x)
    requires Step(t, toCallers, a, b) && b != x
    ensures b in Reachable(t, toCallers, {}, x)
  {
    assert a == x ==> Chain(t, toCallers, {}, x, a, 0);
    var n :| Chain(t, toCallers, {}, x, a, n);
    ChainExtend(t, toCallers, x, a, b, n);
  }

  /**
   * Soundness at every depth: each listed symbol has a chain of its depth, no symbol is listed twice
   * over both lists and the target never is. With a depth of at least the number of symbols: the
   * callers are all transitive callers, the callees all symbols reachable without passing a caller,
   * and those are all transitive callees exactly when no symbol is both.
   */
  ghost predicate ImpactAnswer(t: Tables, x: nat, depth: nat, r: ImpactResult, callers: seq<nat>, callees: seq<nat>) {
    var both := callers + callees;
    var upper := set v | v in callers;
    && |callers| == |r.callers| && |callees| == |r.callees|
    && (forall i :: 0 <= i < |callers| ==> Listed(t, true, x, 1, depth, {x}, r.callers[i], callers[i]))
    && (forall i :: 0 <= i < |callees| ==> Listed(t, false, x, 1, depth, upper + {x}, r.callees[i], callees[i]))
    && (forall i, j :: 0 <= i < j < |both| ==> both[i] != both[j])
    && x !in both
    && (|t.symbols| <= depth ==>
          && (forall v :: v in callers <==> v in Reachable(t, true, {}, x))
          && (forall v :: v in callees <==> v in Reachable(t, false, upper + {x}, x))
          && ((forall v :: v in callees <==> v in Reachable(t, false, {}, x)) <==> upper !! Reachable(t, false, {}, x)))
  }

  /**
   * What exactly is listed, and at which depths, given the order of the rows: the depth-first walk to
   * the callers, then, with the same set of visited symbols, to the callees.
   */
  ghost predicate ImpactByRows(
    t: Tables, x: nat, depth: nat, r: ImpactResult, callers: seq<nat>, callees: seq<nat>, upRows: RowOrder,
    downRows: RowOrder)
  {
    exists visited, all ::
      && Expanded(t, true, upRows, x, 1, depth, {x}, Pairs(callers, r.callers), visited)
      && Expanded(t, false, downRows, x, 1, depth, visited, Pairs(callees, r.callees), all)
  }

  lemma ImpactIsAnswer(
    t: Tables, x: nat, depth: nat, name: string, up: seq<ImpactSymbol>, callers: seq<nat>, visited: set<nat>,
    down: seq<ImpactSymbol>, callees: seq<nat>, all: set<nat>)
    requires x in t.symbols
    requires Expansion(t, true, x, 1, depth, {x}, up, callers, visited)
    requires Expansion(t, false, x, 1, depth, visited, down, callees, all)
    requires |t.symbols| <= depth ==> ClosedIn(t, true, visited - {x} + {x}, visited)
    requires |t.symbols| <= depth ==> ClosedIn(t, false, all - visited + {x}, all)
    ensures ImpactAnswer(t, x, depth, ImpactResult(name, up, down), callers, callees)
  {
    hide Reachable, ClosedIn, Listed;
    var upper, lower := set v | v in callers, set v | v in callees;
    assert visited == upper + {x};
    FreshIds(t, true, x, depth, {x}, up, callers, visited);
    FreshIds(t, false, x, depth, visited, down, callees, all);
    if |t.symbols| <= depth {
      ImpactIsComplete(t, x, depth, up, callers, visited, down, callees, all, upper, lower);
    }
  }

  lemma FreshIds(t: Tables, toCallers: bool, x: nat, maxDepth: nat, visited: set<nat>,
                 result: seq<ImpactSymbol>, ids: seq<nat>, visited': set<nat>)
    requires Expansion(t, toCallers, x, 1, maxDepth, visited, result, ids, visited')
    ensures forall i :: 0 <= i < |ids| ==> ids[i] !in visited && ids[i] in visited'
  {
    hide Chain;
    forall i | 0 <= i < |ids|
      ensures ids[i] !in visited
    {
      assert Listed(t, toCallers, x, 1, maxDepth, visited, result[i], ids[i]);
    }
  }

  lemma ImpactIsComplete(
    t: Tables, x: nat, depth: nat, up: seq<ImpactSymbol>, callers: seq<nat>, visited: set<nat>,
    down: seq<ImpactSymbol>, callees: seq<nat>, all: set<nat>, upper: set<nat>, lower: set<nat>)
    requires x in t.symbols && upper == (set v | v in callers) && lower == (set v | v in callees)
    requires Expansion(t, true, x, 1, depth, {x}, up, callers, visited) && visited == upper + {x} && x !in upper
    requires Expansion(t, false, x, 1, depth, visited, down, callees, all)
    requires ClosedIn(t, true, visited - {x} + {x}, visited) && ClosedIn(t, false, all - visited + {x}, all)
    ensures upper == Reachable(t, true, {}, x)
    ensures lower == Reachable(t, false, visited, x)
    ensures lower == Reachable(t, false, {}, x) <==> upper !! Reachable(t, false, {}, x)
  {
    hide Reachable, ClosedIn, Chain, Listed;
    ExpansionIsReachable(t, true, x, depth, {x}, up, callers, visited);
    assert upper == Reachable(t, true, {x}, x);
    assert visited - {x} + {x} == visited;
    AvoidStart(t, true, x, visited);
    ExpansionIsReachable(t, false, x, depth, visited, down, callees, all);
    FreshIds(t, false, x, depth, visited, down, callees, all);
    assert lower == Reachable(t, false, visited, x);
    assert all - visited + {x} == lower + {x};
    assert all == lower + upper + {x};
    CalleesCompleteIff(t, x, upper, lower);
  }

  /** A listing has as many rows as there are symbols of the name. */
  lemma NamedCount(t: Tables, name: string, r: seq<Symbol>)
    requires SymbolsOk(t) && SymbolsNamed(t, name, r)
    ensures |Named(t, name)| == |r|
  {
    var ids := set s | s in r :: s.id;
    assert ids == Named(t, name);
    DistinctIds(r);
  }

  lemma {:induction false} DistinctIds(r: seq<Symbol>)
    requires forall i, j :: 0 <= i < j < |r| ==> r[i].id != r[j].id
    ensures |set s | s in r :: s.id| == |r|
  {
    if r != [] {
      var init, last := r[..|r| - 1], r[|r| - 1];
      DistinctIds(init);
      assert (set s | s in r :: s.id) == (set s | s in init :: s.id) + {last.id};
    }
  }

  lemma OnlyOne(t: Tables, name: string, r: seq<Symbol>)
    requires SymbolsOk(t) && SymbolsNamed(t, name, r) && |r| == 1
    ensures Named(t, name) == {r[0].id}
  {
    assert r[0] in r;
  }
}
