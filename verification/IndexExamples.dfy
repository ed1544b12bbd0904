/**
 * Small projects that reach the cases in which the index falls short of its promises
 * (crates/visp-codegraph/src/index.rs, crates/visp-codegraph/src/parser.rs).
 */
module IndexExamples {
  import opened Collections
  import opened Graph
  import opened Languages
  import opened Tables
  import opened IndexSpec
  import opened IndexRuns
  import opened IndexEdges
  import opened Rebuilds
  import opened Reading
  import opened ReadingWalk
  import opened ReadingFiles
  import WalkSpec

  // ---- Rust sources as trees ----

  function Leaf(text: string, f: string): WalkSpec.Node {
    WalkSpec.Node("identifier", true, Some(text), f, 0, 0, [])
  }

  function Calls(callee: string, row: nat): WalkSpec.Node {
    WalkSpec.Node("call_expression", true, None, "", row, 0, [Leaf(callee, "function")])
  }

  function Fn(name: string, row: nat, body: seq<WalkSpec.Node>): WalkSpec.Node {
    WalkSpec.Node("function_item", true, None, "", row, 0, [Leaf(name, "name")] + body)
  }

  function File(items: seq<WalkSpec.Node>): WalkSpec.Node {
    WalkSpec.Node("source_file", true, None, "", 0, 0, items)
  }

  lemma IdentifierDescends()
    ensures WalkSpec.Classify("identifier", "rust") == WalkSpec.Descend
  {
  }

  lemma LeafSaysNothing(text: string, f: string, owner: Option<string>, seen: seq<Decl>)
    ensures Read(Leaf(text, f), "rust", owner, seen) == SILENCE
  {
    var node := Leaf(text, f);
    ReadIs(node, "rust", owner, seen);
    IdentifierDescends();
    hide Read, WalkSpec.Classify;
    assert ReadChildren(node, 0, "rust", owner, seen) == SILENCE;
  }

  lemma CallSays(callee: string, row: nat, owner: Option<string>, seen: seq<Decl>)
    ensures Read(Calls(callee, row), "rust", owner, seen) == Items([], [Ref(owner, Call, callee)], [], [])
  {
    var node := Calls(callee, row);
    ReadIs(node, "rust", owner, seen);
    assert WalkSpec.Classify(node.kind, "rust") == WalkSpec.CallSite("function");
    assert WalkSpec.FieldText(node, "function") == Some(callee);
    OneChild(node, owner, seen);
    LeafSaysNothing(callee, "function", owner, Firsts(seen, []));
  }

  lemma OneChild(node: WalkSpec.Node, owner: Option<string>, seen: seq<Decl>)
    requires |node.children| == 1
    ensures ReadChildren(node, 1, "rust", owner, seen)
      == Then(SILENCE, Read(node.children[0], "rust", owner, Firsts(seen, [])))
  {
    assert ReadChildren(node, 0, "rust", owner, seen) == SILENCE;
  }

  lemma TwoChildren(node: WalkSpec.Node, owner: Option<string>, seen: seq<Decl>)
    requires |node.children| == 2
    ensures var first := Then(SILENCE, Read(node.children[0], "rust", owner, Firsts(seen, [])));
            ReadChildren(node, 2, "rust", owner, seen)
              == Then(first, Read(node.children[1], "rust", owner, Firsts(seen, first.decls)))
  {
    assert ReadChildren(node, 0, "rust", owner, seen) == SILENCE;
  }

  /** A function with an empty body, or with one call. */
  lemma FnSays(
    name: string, row: nat, body: seq<WalkSpec.Node>, callee: string, at: nat, owner: Option<string>, seen: seq<Decl>)
    requires body == [] || body == [Calls(callee, at)]
    ensures Read(Fn(name, row, body), "rust", owner, seen) ==
            Items([Decl(name, Function, row + 1, 1)], if body == [] then [] else [Ref(Some(name), Call, callee)], [],
              [])
  {
    hide *;
    var node := Fn(name, row, body);
    var d := Decl(name, Function, row + 1, 1);
    FnShape(name, row, body, owner, seen);
    ReadIs(node, "rust", owner, seen);
    var here := Firsts(seen, [d]);
    LeafSaysNothing(name, "name", Some(name), Firsts(here, []));
    SilentParts();
    OneItem(SILENCE);
    if body == [] {
      OneChild(node, Some(name), here);
      DefinitionIs(node, name, owner, seen, SILENCE);
    } else {
      OneItem(Items([], [Ref(Some(name), Call, callee)], [], []));
      TwoChildren(node, Some(name), here);
      CallSays(callee, at, Some(name), Firsts(here, []));
      DefinitionIs(node, name, owner, seen, Items([], [Ref(Some(name), Call, callee)], [], []));
    }
  }

  lemma SilentParts()
    ensures SILENCE == Items([], [], [], [])
  {
  }

  lemma FnShape(name: string, row: nat, body: seq<WalkSpec.Node>, owner: Option<string>, seen: seq<Decl>)
    ensures var node := Fn(name, row, body);
            && WalkSpec.Classify(node.kind, "rust") == WalkSpec.PlainFunction
            && WalkSpec.FieldText(node, "name") == Some(name)
            && node.children == [Leaf(name, "name")] + body && node.row == row && node.column == 0
            && FunctionKindIn("rust", owner, seen) == Function
  {
    var node := Fn(name, row, body);
    assert node.children[0] == Leaf(name, "name");
    assert WalkSpec.ChildByField(node, "name") == Some(Leaf(name, "name"));
  }

  lemma DefinitionIs(node: WalkSpec.Node, name: string, owner: Option<string>, seen: seq<Decl>, inside: Items)
    requires var d := Decl(name, Function, node.row + 1, node.column + 1);
             ReadChildren(node, |node.children|, "rust", Some(name), Firsts(seen, [d])) == inside
    requires inside.decls == []
    ensures ReadDefinition(node, Some(name), Function, "rust", owner, seen)
            == Items([Decl(name, Function, node.row + 1, node.column + 1)], inside.refs, inside.imports, inside.exports)
  {
    hide ReadChildren, Firsts;
  }

  // ---- A name declared twice ----

  /**
   * Two functions of one name, as `new` in two impl blocks: there is one symbol, that of the first,
   * and the call in the second function is entered as a call by the first.
   */
  lemma SecondNewCallsAsFirst(file: string)
    ensures var r := WalkSpec.ParseFile(file, "rust", File([Fn("new", 0, []), Fn("new", 10, [Calls("helper", 11)])]));
            && |r.symbols| == 1 && r.symbols[0].name == "new" && r.symbols[0].line == 1
            && r.edges == [Edge(0, None, Some("helper"), Call)]
  {
    hide *;
    var root := File([Fn("new", 0, []), Fn("new", 10, [Calls("helper", 11)])]);
    var d, e := Decl("new", Function, 1, 1), Decl("new", Function, 11, 1);
    FileChildren([Fn("new", 0, []), Fn("new", 10, [Calls("helper", 11)])]);
    FnSays("new", 0, [], "helper", 0, None, Firsts([], []));
    FnSays("new", 10, [Calls("helper", 11)], "helper", 11, None, Firsts([], [] + [d]));
    TwoChildren(root, None, []);
    TwoItems(d, e, Ref(Some("new"), Call, "helper"));
    ParseSaysWhatTheTreeSays(file, "rust", root);
    FirstOfTwo(d, e);
    OneDecl(WalkSpec.ParseFile(file, "rust", root), d, [Ref(Some("new"), Call, "helper")]);
  }

  lemma FileChildren(items: seq<WalkSpec.Node>)
    ensures File(items).children == items
  {
  }

  lemma TwoItems(d: Decl, e: Decl, r: Ref)
    ensures Then(SILENCE, Items([d], [], [], [])) == Items([d], [], [], [])
    ensures [] + [d] == [d]
    ensures Then(Items([d], [], [], []), Items([e], [r], [], [])) == Items([d, e], [r], [], [])
  {
  }

  lemma FirstOfTwo(d: Decl, e: Decl)
    requires d.name == e.name
    ensures Firsts([], [d]) == [d] && Firsts([], [d, e]) == [d]
  {
    FirstOnce([], d);
    assert d in [d];
    FirstOnce([d], e);
    FirstsConcat([], [d], [e]);
    assert [d] + [e] == [d, e] && [] + [d] == [d];
  }

  /** A parse with a single symbol and references from inside it. */
  lemma OneDecl(r: ParseResult, d: Decl, refs: seq<Ref>)
    requires DeclsOf(r.symbols) == [d] && r.edges == Map(refs, EdgeFor([d])) && |refs| <= 1
    requires refs != [] ==> refs[0].owner == Some(d.name)
    ensures |r.symbols| == 1 && r.symbols[0].name == d.name && r.symbols[0].line == d.line
    ensures r.edges == if refs == [] then [] else [Edge(0, None, Some(refs[0].target), refs[0].kind)]
  {
    assert DeclsOf(r.symbols)[0] == DeclOf(r.symbols[0]);
    assert d in [d] && At([d], d.name) == 0;
  }

  // ---- A project in which a name is defined twice ----

  lemma OneFn(file: string, name: string, body: seq<WalkSpec.Node>, callee: string, at: nat)
    requires body == [] || body == [Calls(callee, at)]
    ensures var r := WalkSpec.ParseFile(file, "rust", File([Fn(name, 0, body)]));
            && |r.symbols| == 1 && r.symbols[0].name == name
            && r.edges == if body == [] then [] else [Edge(0, None, Some(callee), Call)]
  {
    hide *;
    var root := File([Fn(name, 0, body)]);
    var d := Decl(name, Function, 1, 1);
    var refs := if body == [] then [] else [Ref(Some(name), Call, callee)];
    FileChildren([Fn(name, 0, body)]);
    FnSays(name, 0, body, callee, at, None, Firsts([], []));
    OneChild(root, None, []);
    OneItem(Items([d], refs, [], []));
    ParseSaysWhatTheTreeSays(file, "rust", root);
    FirstOfTwo(d, d);
    OneDecl(WalkSpec.ParseFile(file, "rust", root), d, refs);
  }

  lemma OneItem(items: Items)
    ensures Then(SILENCE, items) == items
  {
  }

  /** Files a and c both define f; b defines g, which calls f. */
  function Project(): Disk {
    map["a.rs" := Parsable(File([Fn("f", 0, [])])),
        "b.rs" := Parsable(File([Fn("g", 0, [Calls("f", 1)])])),
        "c.rs" := Parsable(File([Fn("f", 0, [])]))]
  }

  const LISTING := ["a.rs", "b.rs", "c.rs"]

  function DefinedIn(file: string): string {
    if file == "b.rs" then "g" else "f"
  }

  ghost predicate Expected(file: string, r: ParseResult) {
    && |r.symbols| == 1 && r.symbols[0].name == DefinedIn(file)
    && r.edges == if file == "b.rs" then [Edge(0, None, Some("f"), Call)] else []
  }

  lemma ProjectListed()
    ensures Lists(LISTING, Project()) && Project().Keys == {"a.rs", "b.rs", "c.rs"}
  {
    hide File, Fn, Calls;
  }

  lemma ProjectParses(file: string)
    requires file in Project()
    ensures Parse(file, Project()[file]).Some? && Expected(file, Parse(file, Project()[file]).value)
    ensures file in IndexOf(Project()) && IndexOf(Project())[file] == Parse(file, Project()[file]).value
  {
    hide WalkSpec.ParseFile, Fn, File, Calls, LanguageOf;
    RustFiles();
    OneFn(file, "f", [], "f", 1);
    OneFn(file, "g", [Calls("f", 1)], "f", 1);
  }

  lemma RustFiles()
    ensures LanguageOf("a.rs") == LanguageOf("b.rs") == LanguageOf("c.rs") == Some("rust")
  {
    hide LanguageOf;
    RustFile("a", "a.rs");
    RustFile("b", "b.rs");
    RustFile("c", "c.rs");
  }

  lemma RustFile(name: string, file: string)
    requires |name| == 1 && name[0] != '/' && file == name + ['.'] + "rs"
    ensures LanguageOf(file) == Some("rust")
  {
    hide Extension;
    ExtensionOf("", name, "rs");
  }

  ghost predicate Defines(t: Tables, file: string, name: string) {
    exists id :: id in t.symbols && t.symbols[id].file == file && t.symbols[id].name == name
  }

  lemma InView(t: Tables, id: nat)
    requires id in t.symbols
    ensures Anonymous(t.symbols[id]) in SymbolsIn(t, t.symbols[id].file)
  {
  }

  /** The symbols of a file are what its parse declares. */
  lemma ViewNames(t: Tables, index: FileIndex, file: string, name: string)
    requires Represents(t, index)
    ensures Defines(t, file, name) <==> file in index && NamedIn(index[file].symbols, name)
  {
    assert View(t, file) == Shows(index, file);
    hide Represents, EdgesOf, EntriesOf;
    if file in index {
      var r := index[file];
      assert SymbolsIn(t, file) == set s | s in r.symbols :: Anonymous(s);
      if NamedIn(r.symbols, name) {
        var s :| s in r.symbols && s.name == name;
        assert Anonymous(s) in SymbolsIn(t, file);
      }
    } else {
      assert SymbolsIn(t, file) == {};
    }
    if Defines(t, file, name) {
      var id :| id in t.symbols && t.symbols[id].file == file && t.symbols[id].name == name;
      InView(t, id);
    }
  }

  lemma ProjectDefines(t: Tables, file: string, name: string)
    requires Represents(t, IndexOf(Project()))
    ensures Defines(t, file, name) <==> file in Project() && name == DefinedIn(file)
  {
    hide Represents, Parse, Project, Defines;
    ViewNames(t, IndexOf(Project()), file, name);
    if file in Project() {
      ProjectParses(file);
      var r := IndexOf(Project())[file];
      assert r.symbols[0] in r.symbols && r.symbols == [r.symbols[0]];
    }
  }

  /** The call in b is bound to one of the two definitions. */
  lemma TheCall(t: Tables) returns (e: EdgeRow)
    requires Represents(t, IndexOf(Project())) && Complete(t)
    ensures e in t.edges && e.source in t.symbols && t.symbols[e.source].file == "b.rs"
    ensures e.target.Some? && e.target.value in t.symbols && t.symbols[e.target.value].name == "f"
    ensures t.symbols[e.target.value].file in {"a.rs", "c.rs"}
  {
    hide *;
    DefinedNames();
    ProjectListed();
    ViewOfB(t);
    ProjectDefines(t, "a.rs", "f");
    DefinedIsKnown(t, "a.rs", "f");
    HasIntegrity(t, IndexOf(Project()));
    e := OwnEdge(t, "b.rs", AbsEdge("g", Some("f"), Call));
    IsDefined(t, e.target.value);
    ProjectDefines(t, t.symbols[e.target.value].file, "f");
  }

  lemma DefinedNames()
    ensures forall f :: DefinedIn(f) == "f" <==> f != "b.rs"
  {
  }

  lemma IsDefined(t: Tables, id: nat)
    requires id in t.symbols
    ensures Defines(t, t.symbols[id].file, t.symbols[id].name)
  {
  }

  lemma DefinedIsKnown(t: Tables, file: string, name: string)
    requires Defines(t, file, name)
    ensures NameKnown(t, name)
  {
  }

  lemma ViewOfB(t: Tables)
    requires Represents(t, IndexOf(Project()))
    ensures EdgesOf(t, "b.rs") == [AbsEdge("g", Some("f"), Call)]
  {
    ProjectListed();
    ProjectParses("b.rs");
    hide Project, Parse, IndexOf, Integrity;
    var r := IndexOf(Project())["b.rs"];
    assert View(t, "b.rs") == Shows(IndexOf(Project()), "b.rs");
    OneEdge(r);
  }

  lemma OwnEdge(t: Tables, file: string, a: AbsEdge) returns (e: EdgeRow)
    requires Integrity(t) && Complete(t) && EdgesOf(t, file) == [a] && a.target.Some? && NameKnown(t, a.target.value)
    ensures e in t.edges && e.source in t.symbols && t.symbols[e.source].file == file
    ensures e.target.Some? && e.target.value in t.symbols && t.symbols[e.target.value].name == a.target.value
  {
    var owned := Filter(t.edges, OwnedBy(t, file));
    e := owned[0];
    assert e in owned && EdgeOk(t.symbols, e);
    assert Abstract(t)(e) == EdgesOf(t, file)[0];
    if Unresolved(e) {
      StaysUnknown(t, e);
      assert false;
    }
  }

  lemma StaysUnknown(t: Tables, e: EdgeRow)
    requires Complete(t) && e in t.edges && Unresolved(e)
    ensures !NameKnown(t, e.name.value)
  {
  }

  lemma OneEdge(r: ParseResult)
    requires |r.symbols| == 1 && r.symbols[0].name == "g" && r.edges == [Edge(0, None, Some("f"), Call)]
    ensures Map(Filter(r.edges, HasSource(r)), EdgeByName(r)) == [AbsEdge("g", Some("f"), Call)]
  {
    FilterSingle(Edge(0, None, Some("f"), Call), HasSource(r));
  }

  /**
   * A first build of this project reaches every case in which the index falls short. Say the call is
   * bound to the definition in x: removing x leaves it waiting for a name the other file defines;
   * deleting the symbols of x alone strands it; and so does a build of the filled store when only x
   * is left on disk.
   */
  lemma ProjectFallsShort(t: Tables) returns (x: string)
    requires Lists(LISTING, Project()) && Built(EMPTY, LISTING, Project(), t)
    ensures Represents(t, IndexOf(Project())) && Complete(t) && x in Project()
    ensures !Complete(DeleteFileData(t, x))
    ensures !Integrity(DeleteByFile(t, x))
    ensures forall u :: Built(t, [x], map[x := Project()[x]], u) ==> !Integrity(u)
  {
    hide Project, Represents, Complete, DeleteFileData, DeleteByFile, Built, Defines, Integrity, IndexOf;
    BuildRepresents(LISTING, Project(), t);
    var e := TheCall(t);
    ProjectListed();
    x := t.symbols[e.target.value].file;
    var other := if x == "a.rs" then "c.rs" else "a.rs";
    ProjectDefines(t, other, "f");
    ProjectParses(x);
    HasIntegrity(t, IndexOf(Project()));
    DefinedElsewhere(t, x, other, "f");
    CallWaits(t, x, e);
    var left: Disk := map[x := Project()[x]];
    DeclaresOne(left, x, Parse(x, Project()[x]).value);
    forall u | Built(t, [x], left, u)
      ensures !Integrity(u)
    {
      RebuildStrands(t, x, e, left, u);
    }
  }

  lemma HasIntegrity(t: Tables, index: FileIndex)
    requires Represents(t, index)
    ensures Integrity(t)
  {
  }

  lemma DefinedElsewhere(t: Tables, x: string, other: string, name: string)
    requires Defines(t, other, name) && other != x
    ensures KnownElsewhere(t, x, name)
  {
  }

  lemma DeclaresOne(disk: Disk, file: string, r: ParseResult)
    requires file in disk && Parse(file, disk[file]) == Some(r) && |r.symbols| == 1
    ensures Declares(disk, file, r.symbols[0].name)
  {
    assert r.symbols[0] in r.symbols;
  }

  lemma CallWaits(t: Tables, x: string, e: EdgeRow)
    requires Integrity(t) && e in t.edges && e.source in t.symbols && t.symbols[e.source].file != x
    requires e.target.Some? && e.target.value in t.symbols && t.symbols[e.target.value].file == x
    requires KnownElsewhere(t, x, t.symbols[e.target.value].name)
    ensures !Complete(DeleteFileData(t, x)) && !Integrity(DeleteByFile(t, x))
  {
    hide Integrity, Complete, DeleteFileData, DeleteByFile, KnownElsewhere;
    RemovalCompleteIff(t, x);
    DeleteByFileIff(t, x);
    assert BoundInto(t, x, e);
    assert WaitsFor(t, x, e) == Some(t.symbols[e.target.value].name) by { EdgeIsBound(t, e); }
  }

  lemma EdgeIsBound(t: Tables, e: EdgeRow)
    requires Integrity(t) && e in t.edges && e.target.Some?
    ensures !Unresolved(e)
  {
  }

  lemma RebuildStrands(t: Tables, x: string, e: EdgeRow, left: Disk, u: Tables)
    requires Integrity(t) && e in t.edges && e.source in t.symbols && t.symbols[e.source].file != x
    requires e.target.Some? && e.target.value in t.symbols && t.symbols[e.target.value].file == x
    requires left.Keys == {x} && Declares(left, x, t.symbols[e.target.value].name) && Built(t, [x], left, u)
    ensures !Integrity(u)
  {
    hide Integrity, Complete, Built, Declares;
    RebuildIff(t, [x], left, u);
    assert e.target.value in Renewed(t, [x], left) && e.source !in Renewed(t, [x], left);
  }
}
