/**
 * The call graph the queries walk (crates/visp-codegraph/src/query.rs): bound edges between live
 * symbols, paths in it, and the facts behind the breadth-first and the depth-first search.
 */
module CallGraph {
  import opened Collections
  import opened Tables

  /** A bound edge from `a` to `b`. */
  ghost predicate Calls(t: Tables, a: nat, b: nat) {
    exists e :: e in t.edges && e.source == a && e.target == Some(b) && a in t.symbols && b in t.symbols
  }

  ghost predicate Path(t: Tables, p: seq<nat>, a: nat, b: nat) {
    && p != [] && p[0] == a && p[|p| - 1] == b
    && forall i :: 0 <= i < |p| - 1 ==> Calls(t, p[i], p[i + 1])
  }

  ghost predicate Shortest(t: Tables, p: seq<nat>, a: nat, b: nat) {
    && Path(t, p, a, b)
    && (forall i, j :: 0 <= i < j < |p| ==> p[i] != p[j])
    && (forall q :: Path(t, q, a, b) ==> |p| <= |q|)
  }

  lemma PathInit(t: Tables, p: seq<nat>, a: nat, b: nat)
    requires Path(t, p, a, b) && |p| > 1
    ensures Path(t, p[..|p| - 1], a, p[|p| - 2]) && Calls(t, p[|p| - 2], b)
  {
  }

  lemma PathExtend(t: Tables, p: seq<nat>, a: nat, b: nat, c: nat)
    requires Path(t, p, a, b) && Calls(t, b, c)
    ensures Path(t, p + [c], a, c)
  {
    var q := p + [c];
    forall i | 0 <= i < |q| - 1
      ensures Calls(t, q[i], q[i + 1])
    {
      assert i < |p| - 1 ==> Calls(t, p[i], p[i + 1]);
    }
  }

  // ---- Breadth-first search ----

  /** A shortest-so-far path to every visited symbol, each prefix recorded at its own end. */
  ghost predicate Tree(t: Tables, a: nat, visited: set<nat>, paths: map<nat, seq<nat>>) {
    && paths.Keys == visited && a in visited && paths[a] == [a]
    && (forall v :: v in visited ==> v in t.symbols && Path(t, paths[v], a, v))
    && (forall v, i :: v in visited && 0 <= i < |paths[v]| ==>
          paths[v][i] in visited && |paths[paths[v][i]]| == i + 1)
  }

  /** Everything a finished symbol calls is visited, at most one step further out. */
  ghost predicate Finished(t: Tables, done: set<nat>, visited: set<nat>, paths: map<nat, seq<nat>>)
    requires paths.Keys == visited
  {
    && done <= visited
    && forall v, w :: v in done && Calls(t, v, w) ==> w in visited && |paths[w]| <= |paths[v]| + 1
  }

  lemma TreeGrows(t: Tables, a: nat, visited: set<nat>, paths: map<nat, seq<nat>>, v: nat, w: nat)
    requires Tree(t, a, visited, paths) && v in visited && w !in visited && Calls(t, v, w)
    ensures Tree(t, a, visited + {w}, paths[w := paths[v] + [w]])
  {
    PathExtend(t, paths[v], a, v, w);
    var q := paths[w := paths[v] + [w]];
    forall x, i | x in visited + {w} && 0 <= i < |q[x]|
      ensures q[x][i] in visited + {w} && |q[q[x][i]]| == i + 1
    {
      if x == w && i < |paths[v]| {
        assert paths[v][i] in visited;
      }
    }
  }

  lemma FinishedGrows(t: Tables, done: set<nat>, visited: set<nat>, paths: map<nat, seq<nat>>, w: nat, p: seq<nat>)
    requires paths.Keys == visited && w !in visited && Finished(t, done, visited, paths)
    ensures Finished(t, done, visited + {w}, paths[w := p])
  {
  }

  /** Every path no longer than the level being processed ends in a visited symbol. */
  lemma {:induction false} WithinLevel(
    t: Tables, a: nat, visited: set<nat>, paths: map<nat, seq<nat>>, done: set<nat>, level: nat, q: seq<nat>, x: nat)
    requires Tree(t, a, visited, paths) && Finished(t, done, visited, paths)
    requires forall v :: v in visited && |paths[v]| < level ==> v in done
    requires Path(t, q, a, x) && |q| <= level
    ensures x in visited && |paths[x]| <= |q|
    decreases |q|
  {
    if |q| > 1 {
      PathInit(t, q, a, x);
      WithinLevel(t, a, visited, paths, done, level, q[..|q| - 1], q[|q| - 2]);
    }
  }

  /** When everything visited is finished, every path ends in a visited symbol. */
  lemma {:induction false} AllFinished(
    t: Tables, a: nat, visited: set<nat>, paths: map<nat, seq<nat>>, q: seq<nat>, x: nat)
    requires Tree(t, a, visited, paths) && Finished(t, visited, visited, paths)
    requires Path(t, q, a, x)
    ensures x in visited
    decreases |q|
  {
    if |q| > 1 {
      PathInit(t, q, a, x);
      AllFinished(t, a, visited, paths, q[..|q| - 1], q[|q| - 2]);
    }
  }

  /** The first path found to `b`, from the level being processed, is a shortest one. */
  lemma FoundShortest(
    t: Tables, a: nat, visited: set<nat>, paths: map<nat, seq<nat>>, done: set<nat>, v: nat, b: nat)
    requires Tree(t, a, visited, paths) && Finished(t, done, visited, paths)
    requires v in visited && b !in visited && Calls(t, v, b)
    requires forall u :: u in visited && |paths[u]| < |paths[v]| ==> u in done
    ensures Shortest(t, paths[v] + [b], a, b)
  {
    var p := paths[v] + [b];
    PathExtend(t, paths[v], a, v, b);
    forall q | Path(t, q, a, b)
      ensures |p| <= |q|
    {
      if |q| <= |paths[v]| {
        WithinLevel(t, a, visited, paths, done, |paths[v]|, q, b);
        assert false;
      }
    }
    forall i, j | 0 <= i < j < |p|
      ensures p[i] != p[j]
    {
      if j < |paths[v]| {
        assert |paths[paths[v][i]]| == i + 1 && |paths[paths[v][j]]| == j + 1;
      } else {
        assert paths[v][i] in visited;
      }
    }
  }

  // ---- Chains in either direction ----

  /** One step against the calls (towards callers) or along them (towards callees). */
  ghost predicate Step(t: Tables, toCallers: bool, a: nat, b: nat) {
    if toCallers then Calls(t, b, a) else Calls(t, a, b)
  }

  /** A chain of exactly `n` steps from `a` to `b` that enters no symbol of `avoided`. */
  ghost predicate Chain(t: Tables, toCallers: bool, avoided: set<nat>, a: nat, b: nat, n: nat)
    decreases n
  {
    if n == 0 then a == b
    else exists c :: c !in avoided && Step(t, toCallers, a, c) && Chain(t, toCallers, avoided, c, b, n - 1)
  }

  ghost predicate Reaches(t: Tables, toCallers: bool, avoided: set<nat>, a: nat, b: nat) {
    exists n :: Chain(t, toCallers, avoided, a, b, n)
  }

  /** The neighbours of every symbol of `s` are in `v`. */
  ghost predicate ClosedIn(t: Tables, toCallers: bool, s: set<nat>, v: set<nat>) {
    forall x, y :: x in s && Step(t, toCallers, x, y) ==> y in v
  }

  /** From a closed set a chain that avoids `avoided` does not leave it. */
  lemma {:induction false} StaysInside(
    t: Tables, toCallers: bool, s: set<nat>, avoided: set<nat>, a: nat, b: nat, n: nat)
    requires a in s && ClosedIn(t, toCallers, s, s + avoided) && Chain(t, toCallers, avoided, a, b, n)
    ensures b in s
    decreases n
  {
    if n > 0 {
      var c :| c !in avoided && Step(t, toCallers, a, c) && Chain(t, toCallers, avoided, c, b, n - 1);
      StaysInside(t, toCallers, s, avoided, c, b, n - 1);
    }
  }

  /** Forbidding less allows more. */
  lemma {:induction false} ChainWeaken(
    t: Tables, toCallers: bool, more: set<nat>, fewer: set<nat>, a: nat, b: nat, n: nat)
    requires fewer <= more && Chain(t, toCallers, more, a, b, n)
    ensures Chain(t, toCallers, fewer, a, b, n)
    decreases n
  {
    if n > 0 {
      var c :| c !in more && Step(t, toCallers, a, c) && Chain(t, toCallers, more, c, b, n - 1);
      ChainWeaken(t, toCallers, more, fewer, c, b, n - 1);
    }
  }
}
