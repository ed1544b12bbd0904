/**
 * What the parser walk computes (crates/visp-codegraph/src/parser.rs), as functions over a `Walk`
 * value whose contracts carry the invariant of the walk. Module Parser holds the walk itself, which
 * updates its state in place. The syntax tree carries exactly what the walk looks at.
 */
module WalkSpec {
  import opened Collections
  import opened Graph

  /** A syntax node; `text` is its UTF-8 text if it has one, `field` its field name in its parent. */
  datatype Node = Node(
    kind: string,
    named: bool,
    text: Option<string>,
    field: string,
    row: nat,
    column: nat,
    children: seq<Node>)

  /** The state threaded through the walk. */
  datatype Walk = Walk(
    symbols: seq<Symbol>,
    edges: seq<Edge>,
    imports: seq<Import>,
    exports: seq<Export>,
    dedup: set<(string, string)>,
    nextId: nat)

  const START := Walk([], [], [], [], {}, 0)

  // ---- Looking things up in the tree ----

  /** The first of the children from position `i` on that is the field `f`. */
  function ChildByField(node: Node, f: string, i: nat := 0): (r: Option<Node>)
    ensures r.Some? ==> r.value in node.children && r.value.field == f
    decreases |node.children| - i
  {
    if i >= |node.children| then None
    else if node.children[i].field == f then Some(node.children[i])
    else ChildByField(node, f, i + 1)
  }

  function FieldText(node: Node, f: string): Option<string> {
    match ChildByField(node, f)
    case Some(c) => c.text
    case None => None
  }

  function ChildOfKind(node: Node, kind: string, i: nat := 0): (r: Option<Node>)
    ensures r.Some? ==> r.value in node.children && r.value.kind == kind
    decreases |node.children| - i
  {
    if i >= |node.children| then None
    else if node.children[i].kind == kind then Some(node.children[i])
    else ChildOfKind(node, kind, i + 1)
  }

  /** The name of a C function, nested somewhere inside its declarator. */
  function FindIdentifier(node: Node): Option<string>
    decreases node, 1, 0
  {
    match FieldText(node, "name")
    case Some(name) => Some(name)
    case None => FindIdentifierFrom(node, 0)
  }

  function FindIdentifierFrom(node: Node, i: nat): Option<string>
    decreases node, 0, |node.children| - i
  {
    if i >= |node.children| then None
    else
      var child := node.children[i];
      if child.kind == "identifier" && child.text.Some? then child.text
      else if child.named && FindIdentifier(child).Some? then FindIdentifier(child)
      else FindIdentifierFrom(node, i + 1)
  }

  function TrimStart(s: string, c: char): string {
    if s != [] && s[0] == c then TrimStart(s[1..], c) else s
  }

  function TrimEnd(s: string, c: char): string {
    if s != [] && s[|s| - 1] == c then TrimEnd(s[..|s| - 1], c) else s
  }

  function Trim(s: string, c: char): string {
    TrimEnd(TrimStart(s, c), c)
  }

  function Unquote(s: string): string {
    Trim(Trim(s, '\''), '"')
  }

  // ---- What the walk does at a node ----

  /** The arms of the walk's match on (node kind, language). */
  datatype Action =
    | CFunction                    // name found inside the declarator, children under the new symbol
    | Definition(sym: SymbolKind)  // name field, children under the new symbol
    | PlainFunction                // as Definition, a method if the enclosing symbol is a Python class
    | ClassDeclaration             // as Definition(Class), children through the class-body walk
    | Signature                    // a symbol only, children not visited
    | Outline(sym: SymbolKind)     // a symbol, children under the enclosing symbol
    | Variables
    | GoConstants
    | RustConstant
    | CallSite(calleeField: string)
    | Heritage(edge: EdgeKind)
    | ImportSite
    | ExportSite
    | Descend

  function Classify(kind: string, lang: string): Action {
    match kind
    case "function_definition" => if lang == "c" || lang == "cpp" then CFunction else PlainFunction
    case "function_declaration" | "function_item" => PlainFunction
    case "generator_function_declaration" | "generator_function" => Definition(Function)
    case "class_declaration" => ClassDeclaration
    case "struct_item" | "class_definition" | "struct_specifier" | "class_specifier" => Definition(Class)
    case "method_definition" | "method_declaration" => Definition(Method)
    case "method_signature" => Signature
    case "interface_declaration" | "trait_item" | "interface_type" => Outline(Interface)
    case "type_alias_declaration" | "type_item" | "type_alias_statement" | "type_declaration" => Outline(TypeAlias)
    case "enum_declaration" | "enum_item" | "enum_specifier" => Outline(Enum)
    case _ => ClassifyBinding(kind, lang)
  }

  /** The arms for variables and constants. */
  function ClassifyBinding(kind: string, lang: string): Action {
    match kind
    case "lexical_declaration" | "variable_declaration" | "let_declaration" => Variables
    case "const_declaration" => if lang == "go" then GoConstants else Descend
    case "const_item" | "static_item" => if lang == "rust" then RustConstant else Descend
    case _ => ClassifyUse(kind)
  }

  /** The arms for what is not a declaration. */
  function ClassifyUse(kind: string): Action {
    match kind
    case "call_expression" => CallSite("function")
    case "new_expression" => CallSite("constructor")
    case "extends_clause" => Heritage(Inheritance)
    case "implements_clause" => Heritage(Implementation)
    case "import_statement" | "use_declaration" | "import_declaration" => ImportSite
    case "export_statement" => ExportSite
    case _ => Descend
  }

  // ---- The invariant of the walk ----

  lemma ImportsKeepGood(w: Walk, imports: seq<Import>, file: string)
    requires Good(w, file)
    ensures Good(w.(imports := imports), file)
  {
  }

  ghost function Keys(symbols: seq<Symbol>): set<(string, string)> {
    set s | s in symbols :: (s.name, s.file)
  }

  /** Ids are positions, names are distinct and are what `dedup` holds, edges hang off symbols. */
  ghost predicate Good(w: Walk, file: string) {
    && w.nextId == |w.symbols|
    && (forall i :: 0 <= i < |w.symbols| ==> w.symbols[i].id == i && w.symbols[i].file == file)
    && (forall s :: s in w.symbols ==> s.signature.None? && s.docstring.None?)
    && (forall i, j :: 0 <= i < j < |w.symbols| ==> w.symbols[i].name != w.symbols[j].name)
    && w.dedup == Keys(w.symbols)
    && (forall e :: e in w.edges ==>
          e.targetId.None? && e.targetName.Some? && (e.sourceId == 0 || e.sourceId < |w.symbols|))
    && (forall x :: x in w.exports ==> x.symbol.None?)
  }

  /** The walk only ever appends. */
  ghost predicate Grows(a: Walk, b: Walk) {
    a.symbols <= b.symbols && a.edges <= b.edges && a.imports <= b.imports && a.exports <= b.exports
  }

  /** The enclosing symbol, if there is one, is in the list. */
  ghost predicate Known(current: Option<nat>, w: Walk) {
    current.Some? ==> current.value < |w.symbols|
  }

  // ---- Symbols and edges ----

  function FindSymbol(symbols: seq<Symbol>, name: string, file: string): (r: Option<nat>)
    ensures r.Some? ==> exists i ::
      0 <= i < |symbols| && symbols[i].id == r.value && symbols[i].name == name && symbols[i].file == file
    ensures r.None? ==> forall s :: s in symbols ==> !(s.name == name && s.file == file)
  {
    if symbols == [] then None
    else if symbols[0].name == name && symbols[0].file == file then Some(symbols[0].id)
    else FindSymbol(symbols[1..], name, file)
  }

  /** The kind of the first symbol whose id is `id`. */
  function KindOf(symbols: seq<Symbol>, id: nat): Option<SymbolKind> {
    if symbols == [] then None
    else if symbols[0].id == id then Some(symbols[0].kind)
    else KindOf(symbols[1..], id)
  }

  function AddSymbol(w: Walk, name: string, kind: SymbolKind, file: string, node: Node): (r: (Walk, nat))
    requires Good(w, file)
    ensures Good(r.0, file) && Grows(w, r.0)
    ensures r.1 < |r.0.symbols| && r.0.symbols[r.1].name == name
  {
    if (name, file) in w.dedup then
      (w, match FindSymbol(w.symbols, name, file) case Some(id) => id case None => w.nextId)
    else
      var s := Symbol(w.nextId, name, kind, file, node.row + 1, node.column + 1, None, None);
      var r := w.(symbols := w.symbols + [s], dedup := w.dedup + {(name, file)}, nextId := w.nextId + 1);
      assert r.symbols[|w.symbols|] == s;
      assert forall x :: x in w.symbols ==> (x.name, x.file) in Keys(w.symbols);
      (r, w.nextId)
  }

  /** `source` None means no enclosing symbol: the edge then carries the temporary id 0. */
  function AddEdge(w: Walk, source: Option<nat>, kind: EdgeKind, target: string, ghost file: string): (r: Walk)
    requires Good(w, file) && Known(source, w)
    ensures Good(r, file) && Grows(w, r)
  {
    var id := match source case Some(id) => id case None => 0;
    w.(edges := w.edges + [Edge(id, None, Some(target), kind)])
  }

  /** Declares `name` if there is one; the result's second part is the symbol children belong to. */
  function Declare(
    w: Walk, name: Option<string>, kind: SymbolKind, file: string, node: Node,
    current: Option<nat>): (r: (Walk, Option<nat>))
    requires Good(w, file) && Known(current, w)
    ensures Good(r.0, file) && Grows(w, r.0) && Known(r.1, r.0)
  {
    match name
    case None => (w, current)
    case Some(n) => var a := AddSymbol(w, n, kind, file, node); (a.0, Some(a.1))
  }

  function FunctionKind(w: Walk, lang: string, current: Option<nat>): SymbolKind {
    if lang == "python" && current.Some? && KindOf(w.symbols, current.value) == Some(Class) then Method else Function
  }

  // ---- Imports and exports ----

  /** The names of the first `n` specifiers of a clause. */
  function SpecNames(clause: Node, specKind: string, n: nat): seq<string>
    requires n <= |clause.children|
  {
    if n == 0 then []
    else
      var spec := clause.children[n - 1];
      SpecNames(clause, specKind, n - 1)
      + if spec.kind == specKind && FieldText(spec, "name").Some? then [FieldText(spec, "name").value] else []
  }

  /** The names in the export clauses among the first `n` children. */
  function ExportNames(node: Node, n: nat): seq<string>
    requires n <= |node.children|
  {
    if n == 0 then []
    else
      var child := node.children[n - 1];
      ExportNames(node, n - 1)
      + if child.kind == "export_clause" then SpecNames(child, "export_specifier", |child.children|) else []
  }

  function NamedImports(clause: Node): seq<string> {
    match ChildOfKind(clause, "named_imports")
    case Some(named) => SpecNames(named, "import_specifier", |named.children|)
    case None => []
  }

  function NamespaceImport(clause: Node): seq<string> {
    match ChildOfKind(clause, "namespace_import")
    case Some(ns) => (match FieldText(ns, "name") case Some(name) => [name] case None => [])
    case None => []
  }

  function DefaultImport(clause: Node): seq<string> {
    match ChildOfKind(clause, "identifier")
    case Some(ident) => (match ident.text case Some(name) => [name] case None => [])
    case None => []
  }

  /** What an import statement adds to the imports. */
  function ImportsOf(node: Node): seq<Import> {
    match FieldText(node, "source")
    case None => []
    case Some(src) =>
      match ChildOfKind(node, "import_clause")
      case None => []
      case Some(clause) =>
        ImportsFrom(NamedImports(clause) + NamespaceImport(clause) + DefaultImport(clause), Unquote(src))
  }

  function ImportsFrom(names: seq<string>, from: string): (r: seq<Import>)
    ensures |r| == |names|
  {
    Map(names, name => (name, from))
  }

  function ExportsFrom(names: seq<string>, from: Option<string>): (r: seq<Export>)
    ensures |r| == |names|
    ensures forall x :: x in r ==> x.symbol.None?
  {
    Map(names, name => Export(name, None, from))
  }

  lemma ImportsFromConcat(a: seq<string>, b: seq<string>, from: string)
    ensures ImportsFrom(a + b, from) == ImportsFrom(a, from) + ImportsFrom(b, from)
  {
  }

  lemma ExportsFromConcat(a: seq<string>, b: seq<string>, from: Option<string>)
    ensures ExportsFrom(a + b, from) == ExportsFrom(a, from) + ExportsFrom(b, from)
  {
  }

  function Exported(exports: seq<Export>, name: string): bool {
    exists x :: x in exports && x.name == name
  }

  /** Adds the symbols not yet exported by name, in order. */
  function ExportNew(exports: seq<Export>, symbols: seq<Symbol>): (r: seq<Export>)
    requires forall x :: x in exports ==> x.symbol.None?
    ensures exports <= r && forall x :: x in r ==> x.symbol.None?
  {
    if symbols == [] then exports
    else
      var before := ExportNew(exports, symbols[..|symbols| - 1]);
      var name := symbols[|symbols| - 1].name;
      if Exported(before, name) then before else before + [Export(name, None, None)]
  }

  /** A new entry: a symbol's name, without a source, not exported before it. */
  ghost predicate NewlyExported(r: seq<Export>, i: nat, symbols: seq<Symbol>) {
    i < |r| && r[i].source.None? && !Exported(r[..i], r[i].name) && exists s :: s in symbols && s.name == r[i].name
  }

  /** Every symbol's name ends up exported, and only such names are added, each once. */
  lemma {:induction false} ExportNewAdds(exports: seq<Export>, symbols: seq<Symbol>)
    requires forall x :: x in exports ==> x.symbol.None?
    ensures var r := ExportNew(exports, symbols);
            && (forall s :: s in symbols ==> Exported(r, s.name))
            && (forall i :: |exports| <= i < |r| ==> NewlyExported(r, i, symbols))
  {
    if symbols != [] {
      var init, last := symbols[..|symbols| - 1], symbols[|symbols| - 1];
      var before, r := ExportNew(exports, init), ExportNew(exports, symbols);
      ExportNewAdds(exports, init);
      assert r == if Exported(before, last.name) then before else before + [Export(last.name, None, None)];
      hide ExportNew, NewlyExported;
      assert forall s :: s in symbols <==> s in init || s == last;
      forall s | s in symbols
        ensures Exported(r, s.name)
      {
        ExportedStays(before, last.name, s.name);
      }
      forall i | |exports| <= i < |r|
        ensures NewlyExported(r, i, symbols)
      {
        if i < |before| {
          StillNew(before, r, i, init, symbols);
        } else {
          LastIsNewlyExported(before, r, symbols);
        }
      }
    }
  }

  lemma ExportedStays(before: seq<Export>, added: string, name: string)
    ensures Exported(before, name) ==> Exported(before + [Export(added, None, None)], name)
    ensures Exported(before + [Export(added, None, None)], added)
  {
    assert Export(added, None, None) in before + [Export(added, None, None)];
  }

  lemma StillNew(before: seq<Export>, r: seq<Export>, i: nat, init: seq<Symbol>, symbols: seq<Symbol>)
    requires NewlyExported(before, i, init) && before <= r && forall s :: s in init ==> s in symbols
    ensures NewlyExported(r, i, symbols)
  {
    assert r[..i] == before[..i];
  }

  lemma LastIsNewlyExported(before: seq<Export>, r: seq<Export>, symbols: seq<Symbol>)
    requires symbols != [] && !Exported(before, symbols[|symbols| - 1].name)
    requires r == before + [Export(symbols[|symbols| - 1].name, None, None)]
    ensures NewlyExported(r, |before|, symbols)
  {
    assert r[..|before|] == before;
    assert symbols[|symbols| - 1] in symbols;
  }

  // ---- The walk ----

  function WalkNode(node: Node, file: string, lang: string, w: Walk, current: Option<nat>): (r: Walk)
    requires Good(w, file) && Known(current, w)
    ensures Good(r, file) && Grows(w, r)
    decreases node, 3, 0
  {
    var n := |node.children|;
    match Classify(node.kind, lang)
    case CFunction =>
      var d := Declare(w, FindIdentifier(node), Function, file, node, current);
      WalkChildren(node, n, file, lang, d.0, d.1)
    case PlainFunction =>
      var d := Declare(w, FieldText(node, "name"), FunctionKind(w, lang, current), file, node, current);
      WalkChildren(node, n, file, lang, d.0, d.1)
    case Definition(kind) =>
      var d := Declare(w, FieldText(node, "name"), kind, file, node, current);
      WalkChildren(node, n, file, lang, d.0, d.1)
    case ClassDeclaration =>
      var d := Declare(w, FieldText(node, "name"), Class, file, node, current);
      WalkClassBody(node, n, file, lang, d.0, d.1)
    case Signature =>
      Declare(w, FieldText(node, "name"), Method, file, node, current).0
    case Outline(kind) =>
      var d := Declare(w, FieldText(node, "name"), kind, file, node, current);
      WalkChildren(node, n, file, lang, d.0, current)
    case Variables =>
      WalkVariables(node, n, file, lang, w, current).0
    case GoConstants =>
      WalkGoConstants(node, n, file, lang, w, current)
    case RustConstant =>
      if FieldText(node, "name").None? then w
      else
        var d := Declare(w, FieldText(node, "name"), Variable, file, node, current);
        WalkChildren(node, n, file, lang, d.0, d.1)
    case CallSite(field) =>
      var w1 := match FieldText(node, field)
                case Some(name) => AddEdge(w, current, Call, name, file)
                case None => w;
      WalkChildren(node, n, file, lang, w1, current)
    case Heritage(kind) =>
      HeritageEdges(node, n, kind, file, w, current)
    case ImportSite =>
      WalkChildren(node, n, file, lang, w.(imports := w.imports + ImportsOf(node)), current)
    case ExportSite =>
      WalkExport(node, file, lang, w, current)
    case Descend =>
      WalkChildren(node, n, file, lang, w, current)
  }

  /** The first `n` children, in order. */
  function WalkChildren(node: Node, n: nat, file: string, lang: string, w: Walk, current: Option<nat>): (r: Walk)
    requires n <= |node.children| && Good(w, file) && Known(current, w)
    ensures Good(r, file) && Grows(w, r)
    decreases node, 1, n
  {
    if n == 0 then w
    else WalkNode(node.children[n - 1], file, lang, WalkChildren(node, n - 1, file, lang, w, current), current)
  }

  /** The class body: a heritage child is entered directly, any other child is walked. */
  function WalkClassBody(node: Node, n: nat, file: string, lang: string, w: Walk, current: Option<nat>): (r: Walk)
    requires n <= |node.children| && Good(w, file) && Known(current, w)
    ensures Good(r, file) && Grows(w, r)
    decreases node, 1, n
  {
    if n == 0 then w
    else
      var child := node.children[n - 1];
      var before := WalkClassBody(node, n - 1, file, lang, w, current);
      if child.kind == "class_heritage" then
        WalkChildren(child, |child.children|, file, lang, before, current)
      else
        WalkNode(child, file, lang, before, current)
  }

  function HeritageEdges(
    node: Node, n: nat, kind: EdgeKind, ghost file: string, w: Walk, current: Option<nat>): (r: Walk)
    requires n <= |node.children| && Good(w, file) && Known(current, w)
    ensures Good(r, file) && Grows(w, r)
  {
    if n == 0 then w
    else
      var child := node.children[n - 1];
      var before := HeritageEdges(node, n - 1, kind, file, w, current);
      if child.named && child.text.Some? then AddEdge(before, current, kind, child.text.value, file) else before
  }

  predicate HasArrow(declarator: Node) {
    exists c :: c in declarator.children && c.kind == "arrow_function"
  }

  /** One declarator: the symbol it declares, if any, becomes the owner of what is inside and after. */
  function DeclareVariable(child: Node, file: string, w: Walk, last: Option<nat>): (r: (Walk, Option<nat>))
    requires Good(w, file) && Known(last, w)
    ensures Good(r.0, file) && Grows(w, r.0) && Known(r.1, r.0)
  {
    match FieldText(child, "name")
    case None => (w, last)
    case Some(name) =>
      if HasArrow(child) then Declare(w, Some(name), Function, file, child, last)
      else if (name, file) !in w.dedup then Declare(w, Some(name), Variable, file, child, last)
      else (w, last)
  }

  function WalkVariables(
    node: Node, n: nat, file: string, lang: string, w: Walk, current: Option<nat>): (r: (Walk, Option<nat>))
    requires n <= |node.children| && Good(w, file) && Known(current, w)
    ensures Good(r.0, file) && Grows(w, r.0) && Known(r.1, r.0)
    decreases node, 1, n
  {
    if n == 0 then (w, current)
    else
      var child := node.children[n - 1];
      var before := WalkVariables(node, n - 1, file, lang, w, current);
      if child.kind == "variable_declarator" then
        var d := DeclareVariable(child, file, before.0, before.1);
        (WalkChildren(child, |child.children|, file, lang, d.0, d.1), d.1)
      else before
  }

  function WalkGoConstants(node: Node, n: nat, file: string, lang: string, w: Walk, current: Option<nat>): (r: Walk)
    requires n <= |node.children| && Good(w, file) && Known(current, w)
    ensures Good(r, file) && Grows(w, r)
    decreases node, 1, n
  {
    if n == 0 then w
    else
      var spec := node.children[n - 1];
      var before := WalkGoConstants(node, n - 1, file, lang, w, current);
      if spec.kind == "const_spec" && FieldText(spec, "name").Some? then
        var d := Declare(before, FieldText(spec, "name"), Variable, file, spec, current);
        WalkChildren(spec, |spec.children|, file, lang, d.0, d.1)
      else before
  }

  function WalkExport(node: Node, file: string, lang: string, w: Walk, current: Option<nat>): (r: Walk)
    requires Good(w, file) && Known(current, w)
    ensures Good(r, file) && Grows(w, r)
    decreases node, 2, 0
  {
    var n := |node.children|;
    match FieldText(node, "source")
    case Some(src) =>
      w.(exports := w.exports + ExportsFrom(ExportNames(node, n), Some(Unquote(src))))
    case None =>
      var w1 := w.(exports := w.exports + ExportsFrom(ExportNames(node, n), None));
      var w2 := WalkChildren(node, n, file, lang, w1, current);
      w2.(exports := ExportNew(w2.exports, w2.symbols[|w.symbols|..]))
  }

  lemma HeritageDescends(lang: string)
    ensures Classify("class_heritage", lang) == Descend
  {
  }

  /** The class-body walk does nothing the general walk would not do. */
  lemma {:induction false} ClassBodyIsChildren(
    node: Node, n: nat, file: string, lang: string, w: Walk, current: Option<nat>)
    requires n <= |node.children| && Good(w, file) && Known(current, w)
    ensures WalkClassBody(node, n, file, lang, w, current) == WalkChildren(node, n, file, lang, w, current)
  {
    hide Good, Known, Grows, Classify, Declare, AddEdge, FieldText, FindIdentifier, FunctionKind, ImportsOf,
      HeritageEdges, WalkVariables, WalkGoConstants, WalkExport;
    if n > 0 {
      ClassBodyIsChildren(node, n - 1, file, lang, w, current);
      HeritageDescends(lang);
    }
  }

  /** Parsing a file whose tree is `root`: the children of the root, outside any symbol. */
  function ParseFile(file: string, lang: string, root: Node): (r: ParseResult)
    ensures WellFormed(r, file)
  {
    var w := WalkChildren(root, |root.children|, file, lang, START, None);
    ParseResult(w.symbols, w.edges, w.imports, w.exports)
  }
}
