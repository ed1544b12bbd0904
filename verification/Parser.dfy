/**
 * The parser walk (crates/visp-codegraph/src/parser.rs): a recursive descent that appends to its
 * symbol, edge, import and export lists in place. Each method is proved to compute the function of
 * module WalkSpec that describes it.
 */
module Parser {
  import opened Collections
  import opened Graph
  import opened WalkSpec

  class Walker {
    var symbols: seq<Symbol>
    var edges: seq<Edge>
    var imports: seq<Import>
    var exports: seq<Export>
    var dedup: set<(string, string)>
    var nextId: nat

    function State(): Walk
      reads this
    {
      Walk(symbols, edges, imports, exports, dedup, nextId)
    }

    constructor ()
      ensures State() == START
    {
      symbols, edges, imports, exports := [], [], [], [];
      dedup, nextId := {}, 0;
    }

    method AddSymbol(name: string, kind: SymbolKind, file: string, node: Node) returns (id: nat)
      requires Good(State(), file)
      modifies this
      ensures (State(), id) == WalkSpec.AddSymbol(old(State()), name, kind, file, node)
    {
      if (name, file) in dedup {
        match FindSymbol(symbols, name, file)
        case Some(found) => id := found;
        case None => id := nextId;
      } else {
        dedup := dedup + {(name, file)};
        id := nextId;
        nextId := nextId + 1;
        symbols := symbols + [Symbol(id, name, kind, file, node.row + 1, node.column + 1, None, None)];
      }
    }

    method AddEdge(source: Option<nat>, kind: EdgeKind, target: string, ghost file: string)
      requires Good(State(), file) && Known(source, State())
      modifies this
      ensures State() == WalkSpec.AddEdge(old(State()), source, kind, target, file)
    {
      var id := match source case Some(id) => id case None => 0;
      edges := edges + [Edge(id, None, Some(target), kind)];
    }

    /** Declares the symbol if the node has a name; `owner` is the new symbol, else `current`. */
    method Declare(name: Option<string>, kind: SymbolKind, file: string, node: Node, current: Option<nat>)
      returns (owner: Option<nat>)
      requires Good(State(), file) && Known(current, State())
      modifies this
      ensures (State(), owner) == WalkSpec.Declare(old(State()), name, kind, file, node, current)
    {
      owner := current;
      if name.Some? {
        var id := AddSymbol(name.value, kind, file, node);
        owner := Some(id);
      }
    }

    method VisitNode(node: Node, file: string, lang: string, current: Option<nat>)
      requires Good(State(), file) && Known(current, State())
      modifies this
      ensures State() == WalkNode(node, file, lang, old(State()), current)
      decreases node, 3, 0
    {
      hide Good, WalkChildren, Classify;
      match Classify(node.kind, lang)
      case CFunction =>
        var owner := Declare(FindIdentifier(node), Function, file, node, current);
        VisitChildren(node, file, lang, owner);
      case PlainFunction =>
        var owner := Declare(FieldText(node, "name"), FunctionKind(State(), lang, current), file, node, current);
        VisitChildren(node, file, lang, owner);
      case Definition(kind) =>
        var owner := Declare(FieldText(node, "name"), kind, file, node, current);
        VisitChildren(node, file, lang, owner);
      case ClassDeclaration =>
        var owner := Declare(FieldText(node, "name"), Class, file, node, current);
        VisitClassBody(node, file, lang, owner);
      case Signature =>
        var _ := Declare(FieldText(node, "name"), Method, file, node, current);
      case Outline(kind) =>
        var _ := Declare(FieldText(node, "name"), kind, file, node, current);
        VisitChildren(node, file, lang, current);
      case Variables =>
        HandleVariableDeclaration(node, file, lang, current);
      case GoConstants =>
        HandleGoConstants(node, file, lang, current);
      case RustConstant =>
        if FieldText(node, "name").Some? {
          var owner := Declare(FieldText(node, "name"), Variable, file, node, current);
          VisitChildren(node, file, lang, owner);
        }
      case CallSite(field) =>
        if FieldText(node, field).Some? {
          AddEdge(current, Call, FieldText(node, field).value, file);
        }
        VisitChildren(node, file, lang, current);
      case Heritage(kind) =>
        HandleHeritage(node, kind, file, current);
      case ImportSite =>
        ImportsKeepGood(State(), imports + ImportsOf(node), file);
        HandleImport(node);
        VisitChildren(node, file, lang, current);
      case ExportSite =>
        HandleExport(node, file, lang, current);
      case Descend =>
        VisitChildren(node, file, lang, current);
    }

    method VisitChildren(node: Node, file: string, lang: string, current: Option<nat>)
      requires Good(State(), file) && Known(current, State())
      modifies this
      ensures State() == WalkChildren(node, |node.children|, file, lang, old(State()), current)
      decreases node, 1, 0
    {
      hide Good, WalkNode;
      for i := 0 to |node.children|
        invariant State() == WalkChildren(node, i, file, lang, old(State()), current)
      {
        VisitNode(node.children[i], file, lang, current);
      }
    }

    method VisitClassBody(node: Node, file: string, lang: string, current: Option<nat>)
      requires Good(State(), file) && Known(current, State())
      modifies this
      ensures State() == WalkClassBody(node, |node.children|, file, lang, old(State()), current)
      decreases node, 1, 0
    {
      hide WalkNode, WalkChildren, Good;
      for i := 0 to |node.children|
        invariant State() == WalkClassBody(node, i, file, lang, old(State()), current)
      {
        var child := node.children[i];
        if child.kind == "class_heritage" {
          VisitChildren(child, file, lang, current);
        } else {
          VisitNode(child, file, lang, current);
        }
      }
    }

    method HandleHeritage(node: Node, kind: EdgeKind, ghost file: string, current: Option<nat>)
      requires Good(State(), file) && Known(current, State())
      modifies this
      ensures State() == HeritageEdges(node, |node.children|, kind, file, old(State()), current)
    {
      for i := 0 to |node.children|
        invariant State() == HeritageEdges(node, i, kind, file, old(State()), current)
      {
        var child := node.children[i];
        if child.named && child.text.Some? {
          AddEdge(current, kind, child.text.value, file);
        }
      }
    }

    method HandleVariableDeclaration(node: Node, file: string, lang: string, current: Option<nat>)
      requires Good(State(), file) && Known(current, State())
      modifies this
      ensures State() == WalkVariables(node, |node.children|, file, lang, old(State()), current).0
      decreases node, 1, 0
    {
      hide Good, WalkNode, WalkChildren;
      var last := current;
      for i := 0 to |node.children|
        invariant (State(), last) == WalkVariables(node, i, file, lang, old(State()), current)
      {
        var child := node.children[i];
        if child.kind == "variable_declarator" {
          var name := FieldText(child, "name");
          if name.Some? {
            if HasArrow(child) {
              var id := AddSymbol(name.value, Function, file, child);
              last := Some(id);
            } else if (name.value, file) !in dedup {
              var id := AddSymbol(name.value, Variable, file, child);
              last := Some(id);
            }
          }
          VisitChildren(child, file, lang, last);
        }
      }
    }

    method HandleGoConstants(node: Node, file: string, lang: string, current: Option<nat>)
      requires Good(State(), file) && Known(current, State())
      modifies this
      ensures State() == WalkGoConstants(node, |node.children|, file, lang, old(State()), current)
      decreases node, 1, 0
    {
      hide WalkNode, WalkChildren, Good, ChildByField;
      for i := 0 to |node.children|
        invariant State() == WalkGoConstants(node, i, file, lang, old(State()), current)
      {
        var spec := node.children[i];
        if spec.kind == "const_spec" && FieldText(spec, "name").Some? {
          var id := AddSymbol(FieldText(spec, "name").value, Variable, file, spec);
          VisitChildren(spec, file, lang, Some(id));
        }
      }
    }

    method PushNamedImports(named: Node, from: string)
      modifies this
      ensures State() == old(State()).(imports :=
        old(imports) + ImportsFrom(SpecNames(named, "import_specifier", |named.children|), from))
    {
      for j := 0 to |named.children|
        invariant State() == old(State()).(imports :=
          old(imports) + ImportsFrom(SpecNames(named, "import_specifier", j), from))
      {
        var spec := named.children[j];
        if spec.kind == "import_specifier" && FieldText(spec, "name").Some? {
          imports := imports + [(FieldText(spec, "name").value, from)];
        }
      }
    }

    method PushClause(clause: Node, from: string)
      modifies this
      ensures State() == old(State()).(imports :=
                old(imports) + ImportsFrom(NamedImports(clause) + NamespaceImport(clause) + DefaultImport(clause),
                  from))
    {
      hide SpecNames, ChildOfKind, ChildByField, ImportsFrom;
      var named := ChildOfKind(clause, "named_imports");
      if named.Some? {
        PushNamedImports(named.value, from);
      }
      PushNames(NamespaceImport(clause), from);
      PushNames(DefaultImport(clause), from);
      ImportsFromConcat(NamedImports(clause), NamespaceImport(clause), from);
      ImportsFromConcat(NamedImports(clause) + NamespaceImport(clause), DefaultImport(clause), from);
    }

    method PushNames(names: seq<string>, from: string)
      requires |names| <= 1
      modifies this
      ensures State() == old(State()).(imports := old(imports) + ImportsFrom(names, from))
    {
      if names != [] {
        imports := imports + [(names[0], from)];
      }
    }

    method HandleImport(node: Node)
      modifies this
      ensures State() == old(State()).(imports := old(imports) + ImportsOf(node))
    {
      var source, clause := FieldText(node, "source"), ChildOfKind(node, "import_clause");
      if source.Some? && clause.Some? {
        PushClause(clause.value, Unquote(source.value));
      }
    }

    method PushSpecNames(clause: Node, from: Option<string>)
      modifies this
      ensures State() == old(State()).(exports :=
        old(exports) + ExportsFrom(SpecNames(clause, "export_specifier", |clause.children|), from))
    {
      for j := 0 to |clause.children|
        invariant State() == old(State()).(exports :=
          old(exports) + ExportsFrom(SpecNames(clause, "export_specifier", j), from))
      {
        var spec := clause.children[j];
        if spec.kind == "export_specifier" && FieldText(spec, "name").Some? {
          exports := exports + [Export(FieldText(spec, "name").value, None, from)];
        }
      }
    }

    /** Pushes one export per specifier of each export clause of the node. */
    method PushExportNames(node: Node, from: Option<string>)
      modifies this
      ensures State() == old(State()).(exports := old(exports) + ExportsFrom(ExportNames(node, |node.children|), from))
    {
      hide SpecNames, ExportsFrom;
      for i := 0 to |node.children|
        invariant State() == old(State()).(exports := old(exports) + ExportsFrom(ExportNames(node, i), from))
      {
        var child := node.children[i];
        if child.kind == "export_clause" {
          PushSpecNames(child, from);
          ExportsFromConcat(ExportNames(node, i), SpecNames(child, "export_specifier", |child.children|), from);
        } else {
          assert ExportNames(node, i + 1) == ExportNames(node, i);
        }
      }
    }

    method HandleExport(node: Node, file: string, lang: string, current: Option<nat>)
      requires Good(State(), file) && Known(current, State())
      modifies this
      ensures State() == WalkExport(node, file, lang, old(State()), current)
      decreases node, 2, 0
    {
      hide WalkNode, WalkChildren;
      var source := FieldText(node, "source");
      if source.Some? {
        PushExportNames(node, Some(Unquote(source.value)));
        return;
      }
      PushExportNames(node, None);
      var before := |symbols|;
      VisitChildren(node, file, lang, current);
      ghost var walked := State();
      var declared := symbols[before..];
      for i := 0 to |declared|
        invariant State() == walked.(exports := ExportNew(walked.exports, declared[..i]))
      {
        assert declared[..i + 1][..i] == declared[..i];
        if !Exported(exports, declared[i].name) {
          exports := exports + [Export(declared[i].name, None, None)];
        }
      }
      assert declared[..|declared|] == declared;
    }
  }

  method ParseFile(file: string, lang: string, root: Node) returns (r: ParseResult)
    ensures r == WalkSpec.ParseFile(file, lang, root)
  {
    var w := new Walker();
    w.VisitChildren(root, file, lang, None);
    r := ParseResult(w.symbols, w.edges, w.imports, w.exports);
  }
}
