/**
 * Projects whose call graph shows what the impact analysis leaves out (crates/visp-codegraph/src/query.rs).
 * A file of functions that call each other is indexed to exactly the calls written in it.
 */
module CallExamples {
  import opened Collections
  import opened Graph
  import opened Languages
  import opened Tables
  import opened IndexSpec
  import opened IndexRuns
  import opened Reading
  import opened ReadingWalk
  import opened ReadingFiles
  import opened CallGraph
  import opened Exploration
  import opened Query
  import Trees = IndexExamples
  import WalkSpec

  /** A function and the names it calls, in order. */
  datatype Def = Def(name: string, callees: seq<string>)

  function Body(d: Def): seq<WalkSpec.Node> {
    [Trees.Leaf(d.name, "name")] + Map(d.callees, (c: string) => Trees.Calls(c, 0))
  }

  function FnOf(d: Def): WalkSpec.Node {
    WalkSpec.Node("function_item", true, None, "", 0, 0, Body(d))
  }

  function Source(defs: seq<Def>): WalkSpec.Node {
    Trees.File(Map(defs, FnOf))
  }

  ghost predicate DistinctNames(defs: seq<Def>) {
    forall i, j :: 0 <= i < j < |defs| ==> defs[i].name != defs[j].name
  }

  // ---- What the tree says ----

  function CallsIn(d: Def, n: nat): seq<Ref>
    requires n <= |d.callees|
  {
    Map(d.callees[..n], (c: string) => Ref(Some(d.name), Call, c))
  }

  lemma {:induction false} BodySays(d: Def, n: nat, seen: seq<Decl>)
    requires n <= |d.callees|
    ensures ReadChildren(FnOf(d), n + 1, "rust", Some(d.name), seen) == Items([], CallsIn(d, n), [], [])
    decreases n
  {
    hide *;
    var node, owner := FnOf(d), Some(d.name);
    BodyIs(d, n);
    NextChild(node, n + 1, owner, seen);
    Trees.SilentParts();
    if n == 0 {
      NextChild(node, 0, owner, seen);
      Trees.LeafSaysNothing(d.name, "name", owner, Firsts(seen, []));
      Trees.OneItem(SILENCE);
    } else {
      BodySays(d, n - 1, seen);
      Trees.CallSays(d.callees[n - 1], 0, owner, Firsts(seen, []));
      OneMoreCall(d, n);
    }
  }

  lemma BodyIs(d: Def, n: nat)
    requires n <= |d.callees|
    ensures var children := FnOf(d).children;
            && |children| == |d.callees| + 1 && children[0] == Trees.Leaf(d.name, "name")
            && (n > 0 ==> children[n] == Trees.Calls(d.callees[n - 1], 0))
    ensures CallsIn(d, 0) == []
  {
  }

  lemma OneMoreCall(d: Def, n: nat)
    requires 0 < n <= |d.callees|
    ensures Then(Items([], CallsIn(d, n - 1), [], []), Items([], [Ref(Some(d.name), Call, d.callees[n - 1])], [], []))
         == Items([], CallsIn(d, n), [], [])
  {
    assert d.callees[..n] == d.callees[..n - 1] + [d.callees[n - 1]];
  }

  lemma NextChild(node: WalkSpec.Node, n: nat, owner: Option<string>, seen: seq<Decl>)
    requires n <= |node.children|
    ensures n == 0 ==> ReadChildren(node, n, "rust", owner, seen) == SILENCE
    ensures n > 0 ==>
              var before := ReadChildren(node, n - 1, "rust", owner, seen);
              ReadChildren(node, n, "rust", owner, seen)
              == Then(before, Read(node.children[n - 1], "rust", owner, Firsts(seen, before.decls)))
  {
  }

  lemma DefShape(d: Def, owner: Option<string>, seen: seq<Decl>)
    ensures var node := FnOf(d);
            && WalkSpec.Classify(node.kind, "rust") == WalkSpec.PlainFunction
            && WalkSpec.FieldText(node, "name") == Some(d.name)
            && |node.children| == |d.callees| + 1 && node.row == 0 && node.column == 0
            && FunctionKindIn("rust", owner, seen) == Function
  {
    var node := FnOf(d);
    assert node.children[0] == Trees.Leaf(d.name, "name");
    assert WalkSpec.ChildByField(node, "name") == Some(Trees.Leaf(d.name, "name"));
  }

  function DeclFor(d: Def): Decl {
    Decl(d.name, Function, 1, 1)
  }

  lemma DefSays(d: Def, owner: Option<string>, seen: seq<Decl>)
    ensures Read(FnOf(d), "rust", owner, seen) == Items([DeclFor(d)], CallsIn(d, |d.callees|), [], [])
  {
    hide Read, FnOf, WalkSpec.Classify, WalkSpec.FieldText, ReadChildren, Firsts, CallsIn, FunctionKindIn;
    DefShape(d, owner, seen);
    ReadIs(FnOf(d), "rust", owner, seen);
    BodySays(d, |d.callees|, Firsts(seen, [DeclFor(d)]));
  }

  function AllCalls(defs: seq<Def>): seq<Ref> {
    if defs == [] then [] else AllCalls(defs[..|defs| - 1]) + CallsIn(defs[|defs| - 1], |defs[|defs| - 1].callees|)
  }

  lemma {:induction false} SourceSays(defs: seq<Def>, n: nat)
    requires n <= |defs|
    ensures ReadChildren(Source(defs), n, "rust", None, [])
      == Items(Map(defs[..n], DeclFor), AllCalls(defs[..n]), [], [])
    decreases n
  {
    hide *;
    var node := Source(defs);
    SourceIs(defs, n);
    NextChild(node, n, None, []);
    Trees.SilentParts();
    if n > 0 {
      SourceSays(defs, n - 1);
      DefSays(defs[n - 1], None, Firsts([], Map(defs[..n - 1], DeclFor)));
      OneMoreDef(defs, n);
    }
  }

  lemma SourceIs(defs: seq<Def>, n: nat)
    requires n <= |defs|
    ensures |Source(defs).children| == |defs| && (n > 0 ==> Source(defs).children[n - 1] == FnOf(defs[n - 1]))
    ensures Map(defs[..0], DeclFor) == [] && AllCalls(defs[..0]) == []
  {
  }

  lemma OneMoreDef(defs: seq<Def>, n: nat)
    requires 0 < n <= |defs|
    ensures Then(Items(Map(defs[..n - 1], DeclFor), AllCalls(defs[..n - 1]), [], []),
                 Items([DeclFor(defs[n - 1])], CallsIn(defs[n - 1], |defs[n - 1].callees|), [], []))
         == Items(Map(defs[..n], DeclFor), AllCalls(defs[..n]), [], [])
  {
    assert defs[..n][..n - 1] == defs[..n - 1];
    assert Map(defs[..n], DeclFor) == Map(defs[..n - 1], DeclFor) + [DeclFor(defs[n - 1])];
  }

  lemma {:induction false} FirstsOfDistinct(defs: seq<Def>)
    requires DistinctNames(defs)
    ensures Firsts([], Map(defs, DeclFor)) == Map(defs, DeclFor)
  {
    if defs != [] {
      var init, last, decls := defs[..|defs| - 1], defs[|defs| - 1], Map(defs, DeclFor);
      FirstsOfDistinct(init);
      assert decls[..|decls| - 1] == Map(init, DeclFor);
      assert !Has(Map(init, DeclFor), last.name);
    }
  }

  lemma {:induction false} CallsWritten(defs: seq<Def>, r: Ref)
    ensures r in AllCalls(defs) <==> exists i ::
      0 <= i < |defs| && r.target in defs[i].callees && r == Ref(Some(defs[i].name), Call, r.target)
  {
    if defs != [] {
      var init, last := defs[..|defs| - 1], defs[|defs| - 1];
      CallsWritten(init, r);
      assert last.callees[..|last.callees|] == last.callees;
      assert forall i :: 0 <= i < |init| ==> init[i] == defs[i];
    }
  }

  // ---- What the parse says ----

  predicate Written(defs: seq<Def>, caller: string, callee: string) {
    exists i :: 0 <= i < |defs| && defs[i].name == caller && callee in defs[i].callees
  }

  predicate Defined(defs: seq<Def>, name: string) {
    exists i :: 0 <= i < |defs| && defs[i].name == name
  }

  ghost predicate SymbolsWritten(r: ParseResult, defs: seq<Def>) {
    |r.symbols| == |defs| && forall i :: 0 <= i < |defs| ==> r.symbols[i].name == defs[i].name
  }

  predicate EdgeWritten(defs: seq<Def>, e: Edge) {
    && e.sourceId < |defs| && e.targetId.None? && e.kind == Call
    && e.targetName.Some? && e.targetName.value in defs[e.sourceId].callees
  }

  ghost predicate EdgesWritten(r: ParseResult, defs: seq<Def>) {
    SymbolsWritten(r, defs) && forall e :: e in r.edges <==> EdgeWritten(defs, e)
  }

  lemma DefsParse(file: string, defs: seq<Def>)
    requires DistinctNames(defs)
    ensures EdgesWritten(WalkSpec.ParseFile(file, "rust", Source(defs)), defs)
  {
    hide WalkSpec.ParseFile, Source, AllCalls, EdgeFor, EdgeWritten, CallsIn;
    var r, refs, decls := WalkSpec.ParseFile(file, "rust", Source(defs)), AllCalls(defs), Map(defs, DeclFor);
    ParseIs(file, defs);
    assert forall i :: 0 <= i < |defs| ==> DeclsOf(r.symbols)[i] == decls[i];
    forall e | e in r.edges
      ensures EdgeWritten(defs, e)
    {
      var k :| 0 <= k < |refs| && r.edges[k] == e;
      assert refs[k] in refs;
      RefMeans(defs, refs[k]);
    }
    forall e | EdgeWritten(defs, e)
      ensures e in r.edges
    {
      var ref := EdgeMeans(defs, e);
      var k :| 0 <= k < |refs| && refs[k] == ref;
      assert r.edges[k] == e;
    }
  }

  lemma RefMeans(defs: seq<Def>, ref: Ref)
    requires DistinctNames(defs) && ref in AllCalls(defs)
    ensures EdgeWritten(defs, EdgeFor(Map(defs, DeclFor))(ref))
  {
    CallsWritten(defs, ref);
    var i :| 0 <= i < |defs| && ref.target in defs[i].callees && ref == Ref(Some(defs[i].name), Call, ref.target);
    PlaceOf(defs, i);
  }

  lemma EdgeMeans(defs: seq<Def>, e: Edge) returns (ref: Ref)
    requires DistinctNames(defs) && EdgeWritten(defs, e)
    ensures ref in AllCalls(defs) && EdgeFor(Map(defs, DeclFor))(ref) == e
  {
    ref := Ref(Some(defs[e.sourceId].name), Call, e.targetName.value);
    CallsWritten(defs, ref);
    PlaceOf(defs, e.sourceId);
  }

  lemma ParseIs(file: string, defs: seq<Def>)
    requires DistinctNames(defs)
    ensures var r := WalkSpec.ParseFile(file, "rust", Source(defs));
            DeclsOf(r.symbols) == Map(defs, DeclFor) && r.edges == Map(AllCalls(defs), EdgeFor(Map(defs, DeclFor)))
  {
    hide WalkSpec.ParseFile, Read, AllCalls, FnOf, Firsts, EdgeFor;
    SourceSays(defs, |defs|);
    SourceIs(defs, |defs|);
    assert defs[..|defs|] == defs;
    FirstsOfDistinct(defs);
    ParseSaysWhatTheTreeSays(file, "rust", Source(defs));
  }

  lemma PlaceOf(defs: seq<Def>, i: nat)
    requires DistinctNames(defs) && i < |defs|
    ensures At(Map(defs, DeclFor), defs[i].name) == i
  {
    var decls := Map(defs, DeclFor);
    assert decls[i] in decls && Has(decls, defs[i].name);
    assert decls[At(decls, defs[i].name)].name == defs[i].name;
  }

  // ---- What the index says ----

  function OneFile(defs: seq<Def>): Disk {
    map["a.rs" := Parsable(Source(defs))]
  }

  /** A build of the project with just this file. */
  ghost predicate Indexed(t: Tables, defs: seq<Def>) {
    Built(EMPTY, ["a.rs"], OneFile(defs), t)
  }

  lemma IndexedShows(t: Tables, defs: seq<Def>)
    requires DistinctNames(defs) && Indexed(t, defs)
    ensures Integrity(t) && Complete(t)
    ensures exists r :: EdgesWritten(r, defs) && View(t, "a.rs") == Contribution("a.rs", r)
    ensures forall g :: g != "a.rs" ==> View(t, g) == NOTHING
  {
    hide WalkSpec.ParseFile, Source, View, Integrity, Built, LanguageOf;
    var disk := OneFile(defs);
    assert Lists(["a.rs"], disk);
    BuildRepresents(["a.rs"], disk, t);
    DefsParse("a.rs", defs);
    Trees.RustFiles();
    var r := WalkSpec.ParseFile("a.rs", "rust", Source(defs));
    assert IndexOf(disk) == map["a.rs" := r];
    forall g
      ensures View(t, g) == Shows(IndexOf(disk), g)
    {
    }
  }

  lemma AbstractEdges(r: ParseResult, defs: seq<Def>, x: AbsEdge)
    requires EdgesWritten(r, defs) && DistinctNames(defs)
    ensures x in Contribution("a.rs", r).edges <==>
            x.kind == Call && x.target.Some? && Written(defs, x.source, x.target.value)
  {
    var kept := Filter(r.edges, HasSource(r));
    var edges := Map(kept, EdgeByName(r));
    if x in edges {
      var k :| 0 <= k < |edges| && edges[k] == x;
      assert kept[k] in kept && kept[k] in r.edges;
    }
    if x.kind == Call && x.target.Some? && Written(defs, x.source, x.target.value) {
      var i :| 0 <= i < |defs| && defs[i].name == x.source && x.target.value in defs[i].callees;
      var e := Edge(i, None, x.target, Call);
      assert e in kept;
      var k :| 0 <= k < |kept| && kept[k] == e;
      assert edges[k] == x;
    }
  }

  /** The index has one symbol for each function and exactly the calls that are written. */
  ghost predicate AsWritten(t: Tables, defs: seq<Def>) {
    && (forall id :: id in t.symbols ==> Defined(defs, t.symbols[id].name))
    && (forall name :: Defined(defs, name) ==> NameKnown(t, name))
    && (forall a, b :: a in t.symbols && b in t.symbols && t.symbols[a].name == t.symbols[b].name ==> a == b)
    && CallsMatch(t, defs)
  }

  ghost predicate CallsMatch(t: Tables, defs: seq<Def>) {
    forall a, b :: a in t.symbols && b in t.symbols ==> (Calls(t, a, b) <==> Written(defs, NameOf(t, a), NameOf(t, b)))
  }

  lemma AllInFile(t: Tables)
    requires forall g :: g != "a.rs" ==> View(t, g) == NOTHING
    ensures forall id :: id in t.symbols ==> t.symbols[id].file == "a.rs"
  {
    forall id | id in t.symbols
      ensures t.symbols[id].file == "a.rs"
    {
      var g := t.symbols[id].file;
      Trees.InView(t, id);
      assert g != "a.rs" ==> View(t, g).symbols == {};
    }
  }

  lemma NamesShown(t: Tables, defs: seq<Def>, r: ParseResult)
    requires SymbolsWritten(r, defs) && SymbolsIn(t, "a.rs") == (set s | s in r.symbols :: Anonymous(s))
    requires forall id :: id in t.symbols ==> t.symbols[id].file == "a.rs"
    ensures forall id :: id in t.symbols ==> Defined(defs, t.symbols[id].name)
    ensures forall name :: Defined(defs, name) ==> NameKnown(t, name)
  {
    forall id | id in t.symbols
      ensures Defined(defs, t.symbols[id].name)
    {
      Trees.InView(t, id);
      var s :| s in r.symbols && Anonymous(s) == Anonymous(t.symbols[id]);
      var i :| 0 <= i < |r.symbols| && r.symbols[i] == s;
    }
    forall name | Defined(defs, name)
      ensures NameKnown(t, name)
    {
      var i :| 0 <= i < |defs| && defs[i].name == name;
      assert r.symbols[i] in r.symbols && Anonymous(r.symbols[i]) in SymbolsIn(t, "a.rs");
    }
  }

  lemma CallsShown(t: Tables, defs: seq<Def>, r: ParseResult, a: nat, b: nat)
    requires Integrity(t) && Complete(t) && DistinctNames(defs) && EdgesWritten(r, defs)
    requires EdgesOf(t, "a.rs") == Contribution("a.rs", r).edges
    requires forall id :: id in t.symbols ==> t.symbols[id].file == "a.rs"
    requires a in t.symbols && b in t.symbols
    ensures Calls(t, a, b) <==> Written(defs, t.symbols[a].name, t.symbols[b].name)
  {
    var owned := Filter(t.edges, OwnedBy(t, "a.rs"));
    var x := AbsEdge(t.symbols[a].name, Some(t.symbols[b].name), Call);
    AbstractEdges(r, defs, x);
    hide EdgesWritten, Contribution, Written;
    if Calls(t, a, b) {
      var e :| e in t.edges && e.source == a && e.target == Some(b);
      assert e in owned;
      var k :| 0 <= k < |owned| && owned[k] == e;
      assert EdgesOf(t, "a.rs")[k] == Abstract(t)(e);
      AbstractEdges(r, defs, Abstract(t)(e));
    }
    if x in EdgesOf(t, "a.rs") {
      var k :| 0 <= k < |owned| && EdgesOf(t, "a.rs")[k] == x;
      var e := owned[k];
      assert e in owned && EdgeOk(t.symbols, e) && Abstract(t)(e) == x;
      if Unresolved(e) {
        Trees.StaysUnknown(t, e);
        assert false;
      }
      UniqueRow(t, e.source, a);
      UniqueRow(t, e.target.value, b);
    }
  }

  /** Whatever candidates the resolution chose, an indexed file of functions has the calls written in it. */
  lemma IndexedAsWritten(t: Tables, defs: seq<Def>)
    requires DistinctNames(defs) && Indexed(t, defs)
    ensures Integrity(t) && Complete(t) && SymbolsOk(t) && AsWritten(t, defs)
  {
    hide Complete, EdgesWritten, SymbolsWritten, Calls, Written, Defined, NameKnown, Indexed, DistinctNames,
      Contribution, SymbolsIn, EdgesOf, EntriesOf;
    IndexedShows(t, defs);
    AllInFile(t);
    var r :| EdgesWritten(r, defs) && View(t, "a.rs") == Contribution("a.rs", r);
    OfParse(r, defs);
    NamesShown(t, defs, r);
    forall a, b | a in t.symbols && b in t.symbols
      ensures Calls(t, a, b) <==> Written(defs, NameOf(t, a), NameOf(t, b))
    {
      CallsShown(t, defs, r, a, b);
    }
    OneNameEach(t);
  }

  lemma OfParse(r: ParseResult, defs: seq<Def>)
    requires EdgesWritten(r, defs)
    ensures SymbolsWritten(r, defs) && Contribution("a.rs", r).symbols == set s | s in r.symbols :: Anonymous(s)
  {
  }

  lemma OneNameEach(t: Tables)
    requires SymbolsOk(t) && forall id :: id in t.symbols ==> t.symbols[id].file == "a.rs"
    ensures forall a, b :: a in t.symbols && b in t.symbols && t.symbols[a].name == t.symbols[b].name ==> a == b
  {
  }

  // ---- Two functions that call each other ----

  const MUTUAL := [Def("f", ["g"]), Def("g", ["f"])]

  lemma IdOf(t: Tables, defs: seq<Def>, i: nat) returns (id: nat)
    requires AsWritten(t, defs) && i < |defs|
    ensures id in t.symbols && t.symbols[id].name == defs[i].name
  {
    assert Defined(defs, defs[i].name);
    id :| id in t.symbols && t.symbols[id].name == defs[i].name;
  }

  lemma OneStep(t: Tables, toCallers: bool, a: nat, b: nat)
    requires Step(t, toCallers, a, b) && a != b
    ensures Chain(t, toCallers, {}, a, b, 1) && b in Reachable(t, toCallers, {}, a)
  {
    assert Chain(t, toCallers, {}, b, b, 0);
  }

  /**
   * At any sufficient depth the impact of either function lists the other as a caller, and so, though
   * it is called too, not as a callee.
   */
  lemma MutualCalleeMissing(
    t: Tables, x: nat, depth: nat, r: ImpactResult, callers: seq<nat>, callees: seq<nat>) returns (y: nat)
    requires Indexed(t, MUTUAL) && x in t.symbols && |t.symbols| <= depth
    requires ImpactAnswer(t, x, depth, r, callers, callees)
    ensures y in Reachable(t, false, {}, x) && y in callers && y !in callees
    ensures !(forall v :: v in callees <==> v in Reachable(t, false, {}, x))
  {
    hide Indexed, Integrity, Complete, Reachable, Query.Listed, Calls;
    IndexedAsWritten(t, MUTUAL);
    var i :| 0 <= i < 2 && MUTUAL[i].name == t.symbols[x].name;
    y := IdOf(t, MUTUAL, 1 - i);
    assert Written(MUTUAL, NameOf(t, x), NameOf(t, y)) && Written(MUTUAL, NameOf(t, y), NameOf(t, x));
    OneStep(t, false, x, y);
    OneStep(t, true, x, y);
    BothAreCallers(t, x, depth, r, callers, callees, y);
  }

  lemma BothAreCallers(t: Tables, x: nat, depth: nat, r: ImpactResult, callers: seq<nat>, callees: seq<nat>, y: nat)
    requires |t.symbols| <= depth && ImpactAnswer(t, x, depth, r, callers, callees)
    requires y in Reachable(t, true, {}, x) && y in Reachable(t, false, {}, x)
    ensures y in callers && y !in callees
  {
    hide Reachable, Query.Listed;
    assert y in callers;
    if y in callees {
      var k :| 0 <= k < |callers| && callers[k] == y;
      var l :| 0 <= l < |callees| && callees[l] == y;
      SameTwice(callers, callees, k, l);
      assert false;
    }
  }

  lemma SameTwice(a: seq<nat>, b: seq<nat>, k: nat, l: nat)
    requires k < |a| && l < |b| && a[k] == b[l]
    ensures !(forall i, j :: 0 <= i < j < |a + b| ==> (a + b)[i] != (a + b)[j])
  {
    assert (a + b)[k] == (a + b)[|a| + l];
  }

  // ---- A symbol two steps away, beyond the limit ----

  const DEEP := [Def("x", ["a", "c"]), Def("a", ["b"]), Def("b", ["c"]), Def("c", ["d"]), Def("d", [])]

  /** The calls between x, a, b, c and d. */
  predicate DeepNames(n: string, m: string) {
    (n == "x" && (m == "a" || m == "c")) || (n == "a" && m == "b") || (n == "b" && m == "c") || (n == "c" && m == "d")
  }

  lemma DeepCalls(n: string, m: string)
    ensures Written(DEEP, n, m) <==> DeepNames(n, m)
    ensures Defined(DEEP, n) <==> n == "x" || n == "a" || n == "b" || n == "c" || n == "d"
  {
    assert DEEP[0].name == "x" && DEEP[1].name == "a" && DEEP[2].name == "b" && DEEP[3].name == "c"
      && DEEP[4].name == "d";
  }

  predicate Different(ids: seq<nat>) {
    forall i, j :: 0 <= i < j < |ids| ==> ids[i] != ids[j]
  }

  /** The symbols of x, a, b, c and d. */
  ghost predicate Deep(t: Tables, x: nat, a: nat, b: nat, c: nat, d: nat) {
    && Different([x, a, b, c, d]) && t.symbols.Keys == {x, a, b, c, d}
    && forall n, m :: Calls(t, n, m) <==>
        (n == x && (m == a || m == c)) || (n == a && m == b) || (n == b && m == c) || (n == c && m == d)
  }

  lemma DeepIndexed(t: Tables) returns (x: nat, a: nat, b: nat, c: nat, d: nat)
    requires Indexed(t, DEEP)
    ensures Deep(t, x, a, b, c, d)
  {
    hide *;
    NamesDiffer();
    IndexedAsWritten(t, DEEP);
    x := IdOf(t, DEEP, 0);
    a := IdOf(t, DEEP, 1);
    b := IdOf(t, DEEP, 2);
    c := IdOf(t, DEEP, 3);
    d := IdOf(t, DEEP, 4);
    DeepShape(t, x, a, b, c, d);
  }

  lemma NamesDiffer()
    ensures DistinctNames(DEEP) && |DEEP| == 5
    ensures DEEP[0].name == "x" && DEEP[1].name == "a" && DEEP[2].name == "b" && DEEP[3].name == "c"
      && DEEP[4].name == "d"
  {
  }

  lemma DeepShape(t: Tables, x: nat, a: nat, b: nat, c: nat, d: nat)
    requires AsWritten(t, DEEP) && {x, a, b, c, d} <= t.symbols.Keys
    requires t.symbols[x].name == "x" && t.symbols[a].name == "a" && t.symbols[b].name == "b"
    requires t.symbols[c].name == "c" && t.symbols[d].name == "d"
    ensures Deep(t, x, a, b, c, d)
  {
    hide Written, Defined, NameKnown, Calls;
    forall id | id in t.symbols
      ensures id in {x, a, b, c, d}
    {
      DeepCalls(t.symbols[id].name, "");
    }
    forall n, m
      ensures Calls(t, n, m) <==>
              (n == x && (m == a || m == c)) || (n == a && m == b) || (n == b && m == c) || (n == c && m == d)
    {
      if Calls(t, n, m) {
        Ends(t, n, m);
      }
      if n in t.symbols && m in t.symbols {
        DeepCalls(t.symbols[n].name, t.symbols[m].name);
      }
    }
  }

  lemma Ends(t: Tables, a: nat, b: nat)
    requires Calls(t, a, b)
    ensures a in t.symbols && b in t.symbols
  {
  }

  /** With limit 3 there are no callers of x, and the callees are a, b and c at depths 1, 2 and 3. */
  ghost predicate CutOff(t: Tables, x: nat, a: nat, b: nat, c: nat) {
    && Expanded(t, true, map[x := []], x, 1, 3, {x}, [], {x})
    && Expanded(t, false, map[x := [a, c], a := [b], b := [c]], x, 1, 3, {x}, [(a, 1), (b, 2), (c, 3)], {x, a, b, c})
  }

  /**
   * With limit 3, if the rows of x come in the order in which its calls are written, the analysis
   * walks x, a, b, c, where it is cut off, and does not come back to c from x: d, two steps away, is
   * not listed, and c, one step away, is listed at depth 3.
   */
  lemma CutOffMissesNear(t: Tables) returns (x: nat, a: nat, b: nat, c: nat, d: nat)
    requires Indexed(t, DEEP)
    ensures Deep(t, x, a, b, c, d) && Chain(t, false, {}, x, d, 2) && Chain(t, false, {}, x, c, 1)
    ensures CutOff(t, x, a, b, c)
  {
    hide *;
    x, a, b, c, d := DeepIndexed(t);
    DeepChains(t, x, a, b, c, d);
    Walks(t, x, a, b, c, d);
  }

  lemma Walks(t: Tables, x: nat, a: nat, b: nat, c: nat, d: nat)
    requires Deep(t, x, a, b, c, d)
    ensures CutOff(t, x, a, b, c)
  {
    hide Deep, Expanded;
    NoCallers(t, x, a, b, c, d);
    Walk(t, x, a, b, c, d);
  }

  lemma Differ(x: nat, a: nat, b: nat, c: nat, d: nat)
    requires Different([x, a, b, c, d])
    ensures x != a && x != b && x != c && x != d && a != b && a != c && a != d && b != c && b != d && c != d
  {
    var ids := [x, a, b, c, d];
    assert ids[0] == x && ids[1] == a && ids[2] == b && ids[3] == c && ids[4] == d;
  }

  lemma DeepChains(t: Tables, x: nat, a: nat, b: nat, c: nat, d: nat)
    requires Deep(t, x, a, b, c, d)
    ensures Chain(t, false, {}, x, d, 2) && Chain(t, false, {}, x, c, 1)
  {
    hide Calls;
    assert Chain(t, false, {}, d, d, 0) && Chain(t, false, {}, c, c, 0);
    assert Step(t, false, x, c) && Step(t, false, c, d);
    assert Chain(t, false, {}, c, d, 1);
  }

  lemma NoCallers(t: Tables, x: nat, a: nat, b: nat, c: nat, d: nat)
    requires Deep(t, x, a, b, c, d)
    ensures Expanded(t, true, map[x := []], x, 1, 3, {x}, [], {x})
  {
    hide Calls;
    Differ(x, a, b, c, d);
    var rows: RowOrder := map[x := []];
    assert ExploreRows(rows, [], 0, 1, 3, {x}) == ([], {x});
  }

  lemma Walk(t: Tables, x: nat, a: nat, b: nat, c: nat, d: nat)
    requires Deep(t, x, a, b, c, d)
    ensures Expanded(t, false, map[x := [a, c], a := [b], b := [c]], x, 1, 3, {x}, [(a, 1), (b, 2), (c, 3)],
      {x, a, b, c})
  {
    hide Calls, Explore, ExploreRows;
    Differ(x, a, b, c, d);
    var rows: RowOrder := map[x := [a, c], a := [b], b := [c]];
    var listed := [(a, 1), (b, 2), (c, 3)];
    assert RowsOk(t, false, rows);
    assert (a, 1) in listed && (b, 2) in listed;
    assert rows.Keys <= Names(listed) + {x};
    Listing(rows, x, a, b, c);
  }

  /** The rows of x, a and b in the order in which the calls are written. */
  predicate InOrder(rows: RowOrder, x: nat, a: nat, b: nat, c: nat) {
    {x, a, b} <= rows.Keys && rows[x] == [a, c] && rows[a] == [b] && rows[b] == [c]
  }

  lemma Listing(rows: RowOrder, x: nat, a: nat, b: nat, c: nat)
    requires InOrder(rows, x, a, b, c) && x != a && x != b && x != c && a != b && a != c && b != c
    ensures Explore(rows, x, 1, 3, {x}) == ([(a, 1), (b, 2), (c, 3)], {x, a, b, c})
  {
    hide Explore, ExploreRows;
    CutAt(rows, c, 4, 3, {x, a, b} + {c});
    OneRow(rows, b, c, 3, 3, {x, a, b});
    assert {x, a, b} + {c} == {x, a, b, c} && {x, a} + {b} == {x, a, b} && {x} + {a} == {x, a};
    OneRow(rows, a, b, 2, 3, {x, a});
    TwoRows(rows, x, a, c, 1, 3, {x});
    assert [(a, 1)] + ([(b, 2)] + ([(c, 3)] + [])) == [(a, 1), (b, 2), (c, 3)];
  }

  /** Whatever the other rows are, this is then the answer. */
  lemma CutOffAnswer(
    t: Tables, x: nat, a: nat, b: nat, c: nat, d: nat,
    r: ImpactResult, callers: seq<nat>, callees: seq<nat>, upRows: RowOrder, downRows: RowOrder)
    requires Deep(t, x, a, b, c, d) && InOrder(downRows, x, a, b, c)
    requires ImpactAnswer(t, x, 3, r, callers, callees) && ImpactByRows(t, x, 3, r, callers, callees, upRows, downRows)
    ensures callers == [] && Pairs(callees, r.callees) == [(a, 1), (b, 2), (c, 3)] && d !in callees
  {
    hide Calls, ImpactAnswer, Explore, ExploreRows, Pairs;
    Differ(x, a, b, c, d);
    Lengths(t, x, r, callers, callees);
    PairsAt(callers, r.callers);
    PairsAt(callees, r.callees);
    var visited, all :|
      && Expanded(t, true, upRows, x, 1, 3, {x}, Pairs(callers, r.callers), visited)
      && Expanded(t, false, downRows, x, 1, 3, visited, Pairs(callees, r.callees), all);
    assert |upRows[x]| > 0 ==> upRows[x][0] in upRows[x] && Step(t, true, x, upRows[x][0]);
    NoRows(upRows, x);
    Listing(downRows, x, a, b, c);
  }

  lemma NoRows(rows: RowOrder, x: nat)
    requires x in rows && rows[x] == []
    ensures Explore(rows, x, 1, 3, {x}) == ([], {x})
  {
  }

  lemma Lengths(t: Tables, x: nat, r: ImpactResult, callers: seq<nat>, callees: seq<nat>)
    requires ImpactAnswer(t, x, 3, r, callers, callees)
    ensures |callers| == |r.callers| && |callees| == |r.callees|
  {
  }

  lemma PairsAt(ids: seq<nat>, result: seq<ImpactSymbol>)
    requires |ids| == |result|
    ensures |Pairs(ids, result)| == |ids| && forall i :: 0 <= i < |ids| ==> Pairs(ids, result)[i].0 == ids[i]
  {
  }

  lemma CutAt(rows: RowOrder, x: nat, depth: nat, maxDepth: nat, visited: set<nat>)
    requires maxDepth < depth
    ensures Explore(rows, x, depth, maxDepth, visited) == ([], visited)
  {
  }

  lemma FirstRow(rows: RowOrder, ns: seq<nat>, depth: nat, maxDepth: nat, visited: set<nat>)
    requires ns != [] && ns[0] !in visited && depth <= maxDepth
    ensures var below := Explore(rows, ns[0], depth + 1, maxDepth, visited + {ns[0]});
            ExploreRows(rows, ns, 1, depth, maxDepth, visited) == ([(ns[0], depth)] + below.0, below.1)
  {
    assert ExploreRows(rows, ns, 0, depth, maxDepth, visited) == ([], visited);
    assert [] + [(ns[0], depth)] == [(ns[0], depth)];
  }

  lemma OneRow(rows: RowOrder, x: nat, y: nat, depth: nat, maxDepth: nat, visited: set<nat>)
    requires x in rows && rows[x] == [y] && y !in visited && depth <= maxDepth
    ensures var below := Explore(rows, y, depth + 1, maxDepth, visited + {y});
            Explore(rows, x, depth, maxDepth, visited) == ([(y, depth)] + below.0, below.1)
  {
    FirstRow(rows, [y], depth, maxDepth, visited);
  }

  /** The second row brings nothing when it has been visited below the first. */
  lemma TwoRows(rows: RowOrder, x: nat, y: nat, z: nat, depth: nat, maxDepth: nat, visited: set<nat>)
    requires x in rows && rows[x] == [y, z] && y !in visited && depth <= maxDepth
    requires z in Explore(rows, y, depth + 1, maxDepth, visited + {y}).1
    ensures var below := Explore(rows, y, depth + 1, maxDepth, visited + {y});
            Explore(rows, x, depth, maxDepth, visited) == ([(y, depth)] + below.0, below.1)
  {
    FirstRow(rows, [y, z], depth, maxDepth, visited);
  }
}
