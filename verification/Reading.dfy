/**
 * What a syntax tree says, without ids, dedup set or walk state: the declarations, references,
 * imports and exports its nodes make, in the order of the text, every reference under the name of
 * the innermost enclosing declaration. It is defined by node kinds and languages alone and shares
 * nothing with the walk of crates/visp-codegraph/src/parser.rs, which collects exactly that.
 */
module Reading {
  import opened Collections
  import opened Graph
  import opened WalkSpec
  import Leaves

  datatype Decl = Decl(name: string, kind: SymbolKind, line: nat, column: nat)

  /** A reference from inside `owner`, or from outside every declaration. */
  datatype Ref = Ref(owner: Option<string>, kind: EdgeKind, target: string)

  /** An export: listed in a clause, or of something declared in the statement, which counts once. */
  datatype Offer = Offer(entry: Export, listed: bool)

  datatype Items = Items(decls: seq<Decl>, refs: seq<Ref>, imports: seq<Import>, exports: seq<Offer>)

  const SILENCE := Items([], [], [], [])

  function Then(a: Items, b: Items): Items {
    Items(a.decls + b.decls, a.refs + b.refs, a.imports + b.imports, a.exports + b.exports)
  }

  predicate Has(decls: seq<Decl>, name: string) {
    exists d :: d in decls && d.name == name
  }

  /** Declarations in order, the first of each name only. */
  function Firsts(decls: seq<Decl>, more: seq<Decl>): seq<Decl> {
    if more == [] then decls
    else
      var before, d := Firsts(decls, more[..|more| - 1]), more[|more| - 1];
      if Has(before, d.name) then before else before + [d]
  }

  /** Where a name is declared first. */
  function At(decls: seq<Decl>, name: string): (i: nat)
    ensures Has(decls, name) <==> i < |decls|
    ensures i < |decls| ==> decls[i].name == name && forall j :: 0 <= j < i ==> decls[j].name != name
  {
    if decls == [] then 0
    else if decls[0].name == name then
      assert decls[0] in decls;
      0
    else
      assert forall d :: d in decls <==> d == decls[0] || d in decls[1..];
      1 + At(decls[1..], name)
  }

  // ---- Reading a tree ----

  function Named(node: Node, name: Option<string>, kind: SymbolKind): Items {
    match name
    case None => SILENCE
    case Some(n) => Items([Decl(n, kind, node.row + 1, node.column + 1)], [], [], [])
  }

  function Refers(owner: Option<string>, kind: EdgeKind, target: Option<string>): Items {
    match target
    case None => SILENCE
    case Some(t) => Items([], [Ref(owner, kind, t)], [], [])
  }

  function Listed(names: seq<string>, source: Option<string>): Items {
    Items([], [], [], Map(names, (n: string) => Offer(Export(n, None, source), true)))
  }

  function Declared(decls: seq<Decl>): Items {
    Items([], [], [], Map(decls, (d: Decl) => Offer(Export(d.name, None, None), false)))
  }

  /** A function in a Python class is a method. */
  function FunctionKindIn(lang: string, owner: Option<string>, seen: seq<Decl>): SymbolKind {
    if lang == "python" && owner.Some? && At(seen, owner.value) < |seen| && seen[At(seen, owner.value)].kind == Class
    then Method else Function
  }

  /** What a node says inside `owner`, when `seen` are the names declared before it. */
  function Read(node: Node, lang: string, owner: Option<string>, seen: seq<Decl>): Items
    decreases node, 3, 0
  {
    var name := Leaves.FieldOf(node, "name");
    match node.kind
    case "function_definition" =>
      if lang == "c" || lang == "cpp"
      then ReadDefinition(node, Leaves.FirstIdentifier(node), Function, lang, owner, seen)
      else ReadDefinition(node, name, FunctionKindIn(lang, owner, seen), lang, owner, seen)
    case "function_declaration" | "function_item" =>
      ReadDefinition(node, name, FunctionKindIn(lang, owner, seen), lang, owner, seen)
    case "generator_function_declaration" | "generator_function" =>
      ReadDefinition(node, name, Function, lang, owner, seen)
    case "class_declaration" | "struct_item" | "class_definition" | "struct_specifier" | "class_specifier" =>
      ReadDefinition(node, name, Class, lang, owner, seen)
    case "method_definition" | "method_declaration" =>
      ReadDefinition(node, name, Method, lang, owner, seen)
    case "method_signature" =>
      Named(node, name, Method)
    case "interface_declaration" | "trait_item" | "interface_type" =>
      ReadOutline(node, name, Interface, lang, owner, seen)
    case "type_alias_declaration" | "type_item" | "type_alias_statement" | "type_declaration" =>
      ReadOutline(node, name, TypeAlias, lang, owner, seen)
    case "enum_declaration" | "enum_item" | "enum_specifier" =>
      ReadOutline(node, name, Enum, lang, owner, seen)
    case _ =>
      ReadBinding(node, lang, owner, seen)
  }

  /** Variables and constants. */
  function ReadBinding(node: Node, lang: string, owner: Option<string>, seen: seq<Decl>): Items
    decreases node, 2, 2
  {
    var n := |node.children|;
    var name := Leaves.FieldOf(node, "name");
    match node.kind
    case "lexical_declaration" | "variable_declaration" | "let_declaration" =>
      ReadVariables(node, n, lang, owner, seen).0
    case "const_declaration" =>
      if lang == "go" then ReadConstants(node, n, lang, owner, seen) else ReadChildren(node, n, lang, owner, seen)
    case "const_item" | "static_item" =>
      if lang != "rust" then ReadChildren(node, n, lang, owner, seen)
      else if name.None? then SILENCE
      else ReadDefinition(node, name, Variable, lang, owner, seen)
    case _ =>
      ReadUse(node, lang, owner, seen)
  }

  /** What a node says that declares nothing itself. */
  function ReadUse(node: Node, lang: string, owner: Option<string>, seen: seq<Decl>): Items
    decreases node, 2, 1
  {
    var n := |node.children|;
    match node.kind
    case "call_expression" =>
      Then(Refers(owner, Call, Leaves.FieldOf(node, "function")), ReadChildren(node, n, lang, owner, seen))
    case "new_expression" =>
      Then(Refers(owner, Call, Leaves.FieldOf(node, "constructor")), ReadChildren(node, n, lang, owner, seen))
    case "extends_clause" =>
      ReadHeritage(node, n, Inheritance, owner)
    case "implements_clause" =>
      ReadHeritage(node, n, Implementation, owner)
    case "import_statement" | "use_declaration" | "import_declaration" =>
      Then(Items([], [], Leaves.ImportEntries(node), []), ReadChildren(node, n, lang, owner, seen))
    case "export_statement" =>
      ReadExport(node, lang, owner, seen)
    case _ =>
      ReadChildren(node, n, lang, owner, seen)
  }

  /** A declaration whose children stay with the owner. */
  function ReadOutline(
    node: Node, name: Option<string>, kind: SymbolKind, lang: string, owner: Option<string>, seen: seq<Decl>): Items
    decreases node, 2, 0
  {
    var named := Named(node, name, kind);
    Then(named, ReadChildren(node, |node.children|, lang, owner, Firsts(seen, named.decls)))
  }

  /** A declaration and, inside it, its children; without a name the children stay with the owner. */
  function ReadDefinition(
    node: Node, name: Option<string>, kind: SymbolKind, lang: string, owner: Option<string>, seen: seq<Decl>): Items
    decreases node, 2, 0
  {
    var named := Named(node, name, kind);
    Then(named, ReadChildren(node, |node.children|, lang, if name.Some? then name else owner,
      Firsts(seen, named.decls)))
  }

  function ReadChildren(node: Node, n: nat, lang: string, owner: Option<string>, seen: seq<Decl>): Items
    requires n <= |node.children|
    decreases node, 1, n
  {
    if n == 0 then SILENCE
    else
      var before := ReadChildren(node, n - 1, lang, owner, seen);
      Then(before, Read(node.children[n - 1], lang, owner, Firsts(seen, before.decls)))
  }

  /** Each declarator owns what is inside it and after it, unless it only repeats a name. */
  function ReadVariables(
    node: Node, n: nat, lang: string, owner: Option<string>, seen: seq<Decl>): (Items, Option<string>)
    requires n <= |node.children|
    decreases node, 1, n
  {
    if n == 0 then (SILENCE, owner)
    else
      var c := node.children[n - 1];
      var (before, last) := ReadVariables(node, n - 1, lang, owner, seen);
      if c.kind != "variable_declarator" then (before, last)
      else
        var here := Firsts(seen, before.decls);
        var name := Leaves.FieldOf(c, "name");
        var arrow := Leaves.KidsOf(c, "arrow_function") != [];
        var named := Named(c, name, if arrow then Function else Variable);
        var next := if name.Some? && (arrow || !Has(here, name.value)) then name else last;
        (Then(before, Then(named, ReadChildren(c, |c.children|, lang, next, Firsts(here, named.decls)))), next)
  }

  function ReadConstants(node: Node, n: nat, lang: string, owner: Option<string>, seen: seq<Decl>): Items
    requires n <= |node.children|
    decreases node, 1, n
  {
    if n == 0 then SILENCE
    else
      var c := node.children[n - 1];
      var before := ReadConstants(node, n - 1, lang, owner, seen);
      if c.kind == "const_spec" && Leaves.FieldOf(c, "name").Some? then
        Then(before, ReadDefinition(c, Leaves.FieldOf(c, "name"), Variable, lang, owner, Firsts(seen, before.decls)))
      else before
  }

  function ReadHeritage(node: Node, n: nat, kind: EdgeKind, owner: Option<string>): Items
    requires n <= |node.children|
  {
    if n == 0 then SILENCE
    else
      var c := node.children[n - 1];
      var before := ReadHeritage(node, n - 1, kind, owner);
      if c.named && c.text.Some? then Then(before, Refers(owner, kind, c.text)) else before
  }

  /** The names of the clause, then what the statement declares; a re-export is not looked into. */
  function ReadExport(node: Node, lang: string, owner: Option<string>, seen: seq<Decl>): Items
    decreases node, 2, 0
  {
    var n := |node.children|;
    match Leaves.FieldOf(node, "source")
    case Some(src) => Listed(Leaves.ClauseNames(node.children), Some(Leaves.Unquoted(src)))
    case None =>
      var inside := ReadChildren(node, n, lang, owner, seen);
      Then(Then(Listed(Leaves.ClauseNames(node.children), None), inside), Declared(Beyond(seen, inside.decls)))
  }

  /** The names declared first among `more`. */
  function Beyond(seen: seq<Decl>, more: seq<Decl>): seq<Decl> {
    var all := Firsts(seen, more);
    if |seen| <= |all| then all[|seen|..] else []
  }

  // ---- What was collected, compared with what was said ----

  function DeclOf(s: Symbol): Decl {
    Decl(s.name, s.kind, s.line, s.column)
  }

  function DeclsOf(symbols: seq<Symbol>): seq<Decl> {
    Map(symbols, DeclOf)
  }

  /** The edge of a reference: its source is the first declaration of the owner's name. */
  function EdgeFor(decls: seq<Decl>): Ref -> Edge {
    (r: Ref) => Edge(match r.owner case Some(n) => At(decls, n) case None => 0, None, Some(r.target), r.kind)
  }

  /** Listed names always count, a declared one only if nothing is exported under its name yet. */
  function Collect(exports: seq<Export>, offers: seq<Offer>): seq<Export> {
    if offers == [] then exports
    else
      var before, o := Collect(exports, offers[..|offers| - 1]), offers[|offers| - 1];
      if !o.listed && (exists x :: x in before && x.name == o.entry.name) then before else before + [o.entry]
  }

  ghost predicate OwnersKnown(decls: seq<Decl>, refs: seq<Ref>) {
    forall r :: r in refs && r.owner.Some? ==> Has(decls, r.owner.value)
  }

  /** Between `w` and `r` the walk has collected what `items` says. */
  ghost predicate Says(w: Walk, r: Walk, items: Items) {
    && DeclsOf(r.symbols) == Firsts(DeclsOf(w.symbols), items.decls)
    && r.edges == w.edges + Map(items.refs, EdgeFor(DeclsOf(r.symbols)))
    && OwnersKnown(DeclsOf(r.symbols), items.refs)
    && r.imports == w.imports + items.imports
    && r.exports == Collect(w.exports, items.exports)
  }

  /** The enclosing symbol of the walk is the one of that name. */
  ghost predicate OwnerIs(w: Walk, current: Option<nat>, owner: Option<string>) {
    match owner
    case None => current.None?
    case Some(n) => current.Some? && current.value < |w.symbols| && w.symbols[current.value].name == n
  }

  // ---- Laws of the parts ----

  lemma HasConcat(a: seq<Decl>, b: seq<Decl>, name: string)
    ensures Has(a + b, name) <==> Has(a, name) || Has(b, name)
  {
    assert forall d :: d in a + b <==> d in a || d in b;
  }

  lemma {:induction false} FirstsConcat(decls: seq<Decl>, a: seq<Decl>, b: seq<Decl>)
    ensures Firsts(decls, a + b) == Firsts(Firsts(decls, a), b)
  {
    if b == [] {
      assert a + b == a;
    } else {
      assert (a + b)[..|a + b| - 1] == a + b[..|b| - 1];
      FirstsConcat(decls, a, b[..|b| - 1]);
    }
  }

  lemma {:induction false} FirstsGrow(decls: seq<Decl>, more: seq<Decl>)
    ensures decls <= Firsts(decls, more)
  {
    if more != [] {
      FirstsGrow(decls, more[..|more| - 1]);
    }
  }

  /** A name keeps its first place. */
  lemma AtStays(decls: seq<Decl>, more: seq<Decl>, name: string)
    requires decls <= more && Has(decls, name)
    ensures At(more, name) == At(decls, name) && Has(more, name)
  {
    var i := At(decls, name);
    assert more[i] in more && more[i].name == name;
    assert Has(more, name);
    assert more[At(more, name)].name == name;
  }

  lemma {:induction false} CollectConcat(exports: seq<Export>, a: seq<Offer>, b: seq<Offer>)
    ensures Collect(exports, a + b) == Collect(Collect(exports, a), b)
  {
    if b == [] {
      assert a + b == a;
    } else {
      assert (a + b)[..|a + b| - 1] == a + b[..|b| - 1];
      CollectConcat(exports, a, b[..|b| - 1]);
    }
  }

  lemma EdgesStay(decls: seq<Decl>, more: seq<Decl>, refs: seq<Ref>)
    requires decls <= more && OwnersKnown(decls, refs)
    ensures Map(refs, EdgeFor(more)) == Map(refs, EdgeFor(decls)) && OwnersKnown(more, refs)
  {
    forall r | r in refs
      ensures EdgeFor(more)(r) == EdgeFor(decls)(r)
      ensures r.owner.Some? ==> Has(more, r.owner.value)
    {
      if r.owner.Some? {
        AtStays(decls, more, r.owner.value);
      }
    }
    MapCong(refs, EdgeFor(more), EdgeFor(decls));
  }

  lemma SaysNothing(w: Walk)
    ensures Says(w, w, SILENCE)
  {
  }

  lemma SaysThen(a: Walk, b: Walk, c: Walk, x: Items, y: Items)
    requires Says(a, b, x) && Says(b, c, y)
    ensures Says(a, c, Then(x, y))
  {
    hide Has, Firsts, DeclsOf, EdgeFor, Collect, Map, OwnersKnown;
    FirstsConcat(DeclsOf(a.symbols), x.decls, y.decls);
    CollectConcat(a.exports, x.exports, y.exports);
    FirstsGrow(DeclsOf(b.symbols), y.decls);
    EdgesStay(DeclsOf(b.symbols), DeclsOf(c.symbols), x.refs);
    MapConcat(x.refs, y.refs, EdgeFor(DeclsOf(c.symbols)));
    OwnersConcat(DeclsOf(c.symbols), x.refs, y.refs);
  }

  lemma OwnersConcat(decls: seq<Decl>, a: seq<Ref>, b: seq<Ref>)
    requires OwnersKnown(decls, a) && OwnersKnown(decls, b)
    ensures OwnersKnown(decls, a + b)
  {
    assert forall r :: r in a + b <==> r in a || r in b;
  }
}
