/**
 * The depth-first expansion of crates/visp-codegraph/src/query.rs as a function of the order in which
 * the neighbour queries return their rows. Every symbol is expanded at most once, so one order of rows
 * for each symbol says everything.
 */
module Exploration {
  import opened Tables
  import opened CallGraph

  /** For each symbol of the map its neighbours, in the order of the rows. */
  type RowOrder = map<nat, seq<nat>>

  ghost predicate RowsOk(t: Tables, toCallers: bool, rows: RowOrder) {
    forall x, y :: x in rows ==> (y in rows[x] <==> Step(t, toCallers, x, y))
  }

  /** What is listed below `x`, with depths, and what has been visited then. */
  function Explore(rows: RowOrder, x: nat, depth: nat, maxDepth: nat, visited: set<nat>): (seq<(nat, nat)>, set<nat>)
    decreases if depth <= maxDepth then maxDepth + 1 - depth else 0, 1, 0
  {
    if depth > maxDepth || x !in rows then ([], visited)
    else ExploreRows(rows, rows[x], |rows[x]|, depth, maxDepth, visited)
  }

  /** The first `n` rows: a neighbour that is new is listed, followed by what is below it. */
  function ExploreRows(
    rows: RowOrder, ns: seq<nat>, n: nat, depth: nat, maxDepth: nat, visited: set<nat>): (seq<(nat, nat)>, set<nat>)
    requires n <= |ns| && depth <= maxDepth
    decreases maxDepth + 1 - depth, 0, n
  {
    if n == 0 then ([], visited)
    else
      var (listed, seen) := ExploreRows(rows, ns, n - 1, depth, maxDepth, visited);
      var y := ns[n - 1];
      if y in seen then (listed, seen)
      else
        var (below, all) := Explore(rows, y, depth + 1, maxDepth, seen + {y});
        (listed + [(y, depth)] + below, all)
  }

  function Names(listed: seq<(nat, nat)>): set<nat> {
    set p | p in listed :: p.0
  }

  ghost predicate Agree(a: RowOrder, b: RowOrder, xs: set<nat>) {
    forall x :: x in xs ==> (x in a <==> x in b) && (x in a ==> a[x] == b[x])
  }

  lemma NamesConcat(a: seq<(nat, nat)>, b: seq<(nat, nat)>)
    ensures Names(a + b) == Names(a) + Names(b)
  {
    assert forall p :: p in a + b <==> p in a || p in b;
  }

  /** Only the rows of what is listed matter. */
  lemma {:induction false} ExploreAgrees(a: RowOrder, b: RowOrder, x: nat, depth: nat, maxDepth: nat, visited: set<nat>)
    requires Agree(a, b, Names(Explore(a, x, depth, maxDepth, visited).0) + {x})
    ensures Explore(b, x, depth, maxDepth, visited) == Explore(a, x, depth, maxDepth, visited)
    decreases if depth <= maxDepth then maxDepth + 1 - depth else 0, 1, 0
  {
    if depth <= maxDepth && x in a {
      ExploreRowsAgree(a, b, a[x], |a[x]|, depth, maxDepth, visited);
    }
  }

  lemma {:induction false} ExploreRowsAgree(
    a: RowOrder, b: RowOrder, ns: seq<nat>, n: nat, depth: nat, maxDepth: nat, visited: set<nat>)
    requires n <= |ns| && depth <= maxDepth
    requires Agree(a, b, Names(ExploreRows(a, ns, n, depth, maxDepth, visited).0))
    ensures ExploreRows(b, ns, n, depth, maxDepth, visited) == ExploreRows(a, ns, n, depth, maxDepth, visited)
    decreases maxDepth + 1 - depth, 0, n
  {
    if n > 0 {
      var (listed, seen) := ExploreRows(a, ns, n - 1, depth, maxDepth, visited);
      var y := ns[n - 1];
      if y in seen {
        ExploreRowsAgree(a, b, ns, n - 1, depth, maxDepth, visited);
      } else {
        var below := Explore(a, y, depth + 1, maxDepth, seen + {y}).0;
        NamesConcat(listed + [(y, depth)], below);
        NamesConcat(listed, [(y, depth)]);
        assert (y, depth) in [(y, depth)];
        ExploreRowsAgree(a, b, ns, n - 1, depth, maxDepth, visited);
        ExploreAgrees(a, b, y, depth + 1, maxDepth, seen + {y});
      }
    }
  }

  // ---- The expansion loop in these terms ----

  /**
   * After `n` rows of `x`: `rows` holds the rows of `x` and of what was expanded, and the listing so
   * far is what they give.
   */
  ghost predicate Explored(
    t: Tables, toCallers: bool, rows: RowOrder, x: nat, ns: seq<nat>, n: nat, depth: nat, maxDepth: nat,
    visited: set<nat>,
    listed: seq<(nat, nat)>, seen: set<nat>)
  {
    && RowsOk(t, toCallers, rows) && x in rows && rows[x] == ns && rows.Keys <= Names(listed) + {x}
    && (forall p :: p in listed && p.1 < maxDepth ==> p.0 in rows)
    && n <= |ns| && depth <= maxDepth
    && ExploreRows(rows, ns, n, depth, maxDepth, visited) == (listed, seen)
  }

  /** The same for a whole expansion: the rows of all that is expanded are there, and no others. */
  ghost predicate Expanded(
    t: Tables, toCallers: bool, rows: RowOrder, x: nat, depth: nat, maxDepth: nat, visited: set<nat>,
    listed: seq<(nat, nat)>, seen: set<nat>)
  {
    && RowsOk(t, toCallers, rows) && rows.Keys <= Names(listed) + {x}
    && (depth <= maxDepth ==> x in rows) && (forall p :: p in listed && p.1 < maxDepth ==> p.0 in rows)
    && Explore(rows, x, depth, maxDepth, visited) == (listed, seen)
  }

  lemma ExploredStart(
    t: Tables, toCallers: bool, x: nat, ns: seq<nat>, depth: nat, maxDepth: nat, visited: set<nat>)
    requires depth <= maxDepth && forall y :: y in ns <==> Step(t, toCallers, x, y)
    ensures Explored(t, toCallers, map[x := ns], x, ns, 0, depth, maxDepth, visited, [], visited)
  {
  }

  lemma ExploredCut(t: Tables, toCallers: bool, x: nat, depth: nat, maxDepth: nat, visited: set<nat>)
    requires depth > maxDepth
    ensures Expanded(t, toCallers, map[], x, depth, maxDepth, visited, [], visited)
  {
  }

  lemma ExploredSkip(
    t: Tables, toCallers: bool, rows: RowOrder, x: nat, ns: seq<nat>, n: nat, depth: nat, maxDepth: nat,
    visited: set<nat>,
    listed: seq<(nat, nat)>, seen: set<nat>)
    requires Explored(t, toCallers, rows, x, ns, n, depth, maxDepth, visited, listed, seen) && n < |ns| && ns[n] in seen
    ensures Explored(t, toCallers, rows, x, ns, n + 1, depth, maxDepth, visited, listed, seen)
  {
  }

  lemma ExploredMore(
    t: Tables, toCallers: bool, rows: RowOrder, x: nat, ns: seq<nat>, n: nat, depth: nat, maxDepth: nat,
    visited: set<nat>,
    listed: seq<(nat, nat)>, seen: set<nat>, sub: RowOrder, below: seq<(nat, nat)>, all: set<nat>)
    requires Explored(t, toCallers, rows, x, ns, n, depth, maxDepth, visited, listed, seen) && n < |ns|
      && ns[n] !in seen
    requires Expanded(t, toCallers, sub, ns[n], depth + 1, maxDepth, seen + {ns[n]}, below, all)
    requires x in seen && Names(listed) <= seen && Names(below) !! (seen + {ns[n]})
    ensures Explored(t, toCallers, rows + sub, x, ns, n + 1, depth, maxDepth, visited,
      listed + [(ns[n], depth)] + below, all)
  {
    var y, both := ns[n], rows + sub;
    NamesConcat(listed + [(y, depth)], below);
    NamesConcat(listed, [(y, depth)]);
    assert (y, depth) in [(y, depth)];
    assert rows.Keys !! sub.Keys;
    RowsJoin(t, toCallers, rows, sub);
    JoinAgrees(rows, sub, Names(listed), Names(below) + {y});
    ListingMore(rows, sub, both, ns, n, depth, maxDepth, visited, listed, seen, below, all);
    hide RowsOk, Names, Explore, ExploreRows, Agree;
  }

  lemma JoinAgrees(a: RowOrder, b: RowOrder, xs: set<nat>, ys: set<nat>)
    requires a.Keys !! b.Keys && b.Keys <= ys && a.Keys !! ys && xs !! ys
    ensures Agree(a, a + b, xs) && Agree(b, a + b, ys)
  {
  }

  lemma ListingMore(
    rows: RowOrder, sub: RowOrder, both: RowOrder, ns: seq<nat>, n: nat, depth: nat, maxDepth: nat, visited: set<nat>,
    listed: seq<(nat, nat)>, seen: set<nat>, below: seq<(nat, nat)>, all: set<nat>)
    requires n < |ns| && depth <= maxDepth && ns[n] !in seen
    requires ExploreRows(rows, ns, n, depth, maxDepth, visited) == (listed, seen)
    requires Explore(sub, ns[n], depth + 1, maxDepth, seen + {ns[n]}) == (below, all)
    requires Agree(rows, both, Names(listed)) && Agree(sub, both, Names(below) + {ns[n]})
    ensures ExploreRows(both, ns, n + 1, depth, maxDepth, visited) == (listed + [(ns[n], depth)] + below, all)
  {
    ExploreRowsAgree(rows, both, ns, n, depth, maxDepth, visited);
    ExploreAgrees(sub, both, ns[n], depth + 1, maxDepth, seen + {ns[n]});
    hide Agree, Names, Explore;
  }

  lemma RowsJoin(t: Tables, toCallers: bool, a: RowOrder, b: RowOrder)
    requires RowsOk(t, toCallers, a) && RowsOk(t, toCallers, b)
    ensures RowsOk(t, toCallers, a + b)
  {
    hide Step;
  }

  lemma ExploredEnd(
    t: Tables, toCallers: bool, rows: RowOrder, x: nat, ns: seq<nat>, depth: nat, maxDepth: nat, visited: set<nat>,
    listed: seq<(nat, nat)>, seen: set<nat>)
    requires Explored(t, toCallers, rows, x, ns, |ns|, depth, maxDepth, visited, listed, seen)
    ensures Expanded(t, toCallers, rows, x, depth, maxDepth, visited, listed, seen)
  {
  }
}
