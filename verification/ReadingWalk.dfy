/**
 * The walk of crates/visp-codegraph/src/parser.rs collects exactly what the tree says (module Reading),
 * node by node, from any state and inside any enclosing symbol.
 */
module ReadingWalk {
  import opened Collections
  import opened Graph
  import opened WalkSpec
  import opened Reading
  import Leaves

  // ---- The pieces of the walk ----

  lemma KnownName(w: Walk, file: string, name: string)
    requires Good(w, file)
    ensures (name, file) in w.dedup <==> Has(DeclsOf(w.symbols), name)
  {
    var decls := DeclsOf(w.symbols);
    if (name, file) in w.dedup {
      var s :| s in w.symbols && s.name == name;
      var i :| 0 <= i < |w.symbols| && w.symbols[i] == s;
      assert decls[i] in decls;
    }
    if Has(decls, name) {
      var d :| d in decls && d.name == name;
      var i :| 0 <= i < |decls| && decls[i] == d;
      assert w.symbols[i] in w.symbols;
    }
  }

  /** Names are distinct, so the symbol of a name is the first declared under it. */
  lemma OwnerIsFirst(w: Walk, file: string, current: Option<nat>, owner: Option<string>)
    requires Good(w, file) && OwnerIs(w, current, owner)
    ensures owner.Some? ==> Has(DeclsOf(w.symbols), owner.value) && At(DeclsOf(w.symbols), owner.value) == current.value
    ensures Known(current, w)
  {
    if owner.Some? {
      var decls := DeclsOf(w.symbols);
      assert decls[current.value] in decls;
      assert Has(decls, owner.value);
      assert decls[At(decls, owner.value)].name == owner.value;
    }
  }

  lemma OwnerStays(a: Walk, b: Walk, current: Option<nat>, owner: Option<string>)
    requires OwnerIs(a, current, owner) && Grows(a, b)
    ensures OwnerIs(b, current, owner)
  {
  }

  lemma FirstOnce(decls: seq<Decl>, d: Decl)
    ensures Firsts(decls, [d]) == if Has(decls, d.name) then decls else decls + [d]
  {
    assert [d][..0] == [];
  }

  lemma AddedDecl(w: Walk, name: string, kind: SymbolKind, file: string, node: Node)
    requires Good(w, file)
    ensures var (r, id) := AddSymbol(w, name, kind, file, node);
            && r == w.(symbols := r.symbols, dedup := r.dedup, nextId := r.nextId)
            && id < |r.symbols| && r.symbols[id].name == name
            && DeclsOf(r.symbols) == DeclsOf(w.symbols)
               + if (name, file) in w.dedup then [] else [Decl(name, kind, node.row + 1, node.column + 1)]
  {
    var r := AddSymbol(w, name, kind, file, node).0;
    assert (name, file) in w.dedup ==> DeclsOf(w.symbols) + [] == DeclsOf(w.symbols);
  }

  lemma DeclareSays(
    w: Walk, name: Option<string>, kind: SymbolKind, file: string, node: Node, current: Option<nat>,
    owner: Option<string>)
    requires Good(w, file) && OwnerIs(w, current, owner)
    ensures Known(current, w)
    ensures var d := Declare(w, name, kind, file, node, current);
            Says(w, d.0, Named(node, name, kind)) && OwnerIs(d.0, d.1, if name.Some? then name else owner)
  {
    OwnerIsFirst(w, file, current, owner);
    if name.Some? {
      var d := Decl(name.value, kind, node.row + 1, node.column + 1);
      FirstOnce(DeclsOf(w.symbols), d);
      KnownName(w, file, name.value);
      AddedDecl(w, name.value, kind, file, node);
      hide Has, DeclsOf, AddSymbol, Good, Known;
    }
  }

  lemma EdgeSays(w: Walk, current: Option<nat>, owner: Option<string>, kind: EdgeKind, target: string, file: string)
    requires Good(w, file) && OwnerIs(w, current, owner)
    ensures Known(current, w)
    ensures Says(w, AddEdge(w, current, kind, target, file), Refers(owner, kind, Some(target)))
  {
    OwnerIsFirst(w, file, current, owner);
  }

  lemma KindIsSame(w: Walk, file: string, lang: string, current: Option<nat>, owner: Option<string>)
    requires Good(w, file) && OwnerIs(w, current, owner)
    ensures FunctionKind(w, lang, current) == FunctionKindIn(lang, owner, DeclsOf(w.symbols))
  {
    OwnerIsFirst(w, file, current, owner);
    if owner.Some? {
      KindAt(w.symbols, current.value, 0);
    }
  }

  lemma {:induction false} KindAt(symbols: seq<Symbol>, id: nat, first: nat)
    requires forall i :: 0 <= i < |symbols| ==> symbols[i].id == first + i
    requires first <= id < first + |symbols|
    ensures WalkSpec.KindOf(symbols, id) == Some(symbols[id - first].kind)
    decreases |symbols|
  {
    if symbols[0].id != id {
      KindAt(symbols[1..], id, first + 1);
    }
  }

  lemma VariableSays(c: Node, file: string, w: Walk, last: Option<nat>, owner: Option<string>)
    requires Good(w, file) && OwnerIs(w, last, owner)
    ensures Known(last, w)
    ensures var d := DeclareVariable(c, file, w, last);
            var name := FieldText(c, "name");
            && Says(w, d.0, Named(c, name, if HasArrow(c) then Function else Variable))
            && OwnerIs(d.0, d.1,
                       if name.Some? && (HasArrow(c) || !Has(DeclsOf(w.symbols), name.value)) then name else owner)
  {
    OwnerIsFirst(w, file, last, owner);
    hide Good, Says, FieldText, OwnerIs, Has, Declare;
    var name := FieldText(c, "name");
    DeclareSays(w, name, if HasArrow(c) then Function else Variable, file, c, last, owner);
    if name.Some? {
      KnownName(w, file, name.value);
      if !HasArrow(c) && Has(DeclsOf(w.symbols), name.value) {
        AgainSays(w, c, name.value, Variable);
      }
    } else {
      SaysNothing(w);
    }
  }

  lemma AgainSays(w: Walk, node: Node, name: string, kind: SymbolKind)
    requires Has(DeclsOf(w.symbols), name)
    ensures Says(w, w, Named(node, Some(name), kind))
  {
    FirstOnce(DeclsOf(w.symbols), Decl(name, kind, node.row + 1, node.column + 1));
  }

  lemma {:induction false} CollectListed(exports: seq<Export>, names: seq<string>, source: Option<string>)
    ensures Collect(exports, Listed(names, source).exports) == exports + ExportsFrom(names, source)
  {
    if names != [] {
      var n := |names| - 1;
      var offers := Listed(names, source).exports;
      assert offers[..n] == Listed(names[..n], source).exports;
      CollectListed(exports, names[..n], source);
      assert names == names[..n] + [names[n]];
      ExportsFromConcat(names[..n], [names[n]], source);
      assert ExportsFrom([names[n]], source) == [Export(names[n], None, source)];
    } else {
      assert Listed(names, source).exports == [] && ExportsFrom(names, source) == [];
    }
  }

  lemma {:induction false} CollectDeclared(exports: seq<Export>, symbols: seq<Symbol>)
    requires forall x :: x in exports ==> x.symbol.None?
    ensures Collect(exports, Declared(DeclsOf(symbols)).exports) == ExportNew(exports, symbols)
  {
    var offers := Declared(DeclsOf(symbols)).exports;
    if symbols != [] {
      var n := |symbols| - 1;
      assert offers[..n] == Declared(DeclsOf(symbols[..n])).exports;
      CollectDeclared(exports, symbols[..n]);
    }
  }

  // ---- The walk collects what the tree says ----

  /** The walk of a node, arm by arm. */
  lemma WalkNodeIs(node: Node, file: string, lang: string, w: Walk, current: Option<nat>)
    requires Good(w, file) && Known(current, w)
    ensures var a, n, name := Classify(node.kind, lang), |node.children|, FieldText(node, "name");
            var r := WalkNode(node, file, lang, w, current);
            && (a.CFunction? ==> r == WalkDefinition(node, FindIdentifier(node), Function, file, lang, w, current))
            && (a.PlainFunction? ==>
                  r == WalkDefinition(node, name, FunctionKind(w, lang, current), file, lang, w, current))
            && (a.Definition? ==> r == WalkDefinition(node, name, a.sym, file, lang, w, current))
            && (a.ClassDeclaration? ==> r == WalkDefinition(node, name, Class, file, lang, w, current))
            && (a.Signature? ==> r == Declare(w, name, Method, file, node, current).0)
            && (a.Outline? ==> r == WalkOutline(node, name, a.sym, file, lang, w, current))
            && (a.Variables? ==> r == WalkVariables(node, n, file, lang, w, current).0)
            && (a.GoConstants? ==> r == WalkGoConstants(node, n, file, lang, w, current))
            && (a.RustConstant? ==> r == if name.None? then w
                else WalkDefinition(node, name, Variable, file, lang, w, current))
            && (a.CallSite? ==> r == WalkCall(node, FieldText(node, a.calleeField), file, lang, w, current))
            && (a.Heritage? ==> r == HeritageEdges(node, n, a.edge, file, w, current))
            && (a.ImportSite? ==> r == WalkImports(node, ImportsOf(node), file, lang, w, current))
            && (a.ExportSite? ==> r == WalkExport(node, file, lang, w, current))
            && (a.Descend? ==> r == WalkChildren(node, n, file, lang, w, current))
  {
    if Classify(node.kind, lang).ClassDeclaration? {
      var d := Declare(w, FieldText(node, "name"), Class, file, node, current);
      ClassBodyIsChildren(node, |node.children|, file, lang, d.0, d.1);
    }
    hide Good, Declare, AddEdge, WalkVariables, WalkGoConstants, WalkExport, HeritageEdges,
         WalkChildren, WalkClassBody, FieldText, FindIdentifier, ImportsOf, Classify, FunctionKind;
  }

  /** What a node says, arm by arm. */
  lemma ReadIs(node: Node, lang: string, owner: Option<string>, seen: seq<Decl>)
    ensures var a, n, name := Classify(node.kind, lang), |node.children|, FieldText(node, "name");
            var r := Read(node, lang, owner, seen);
            && (a.CFunction? ==> r == ReadDefinition(node, FindIdentifier(node), Function, lang, owner, seen))
            && (a.PlainFunction? ==>
                  r == ReadDefinition(node, name, FunctionKindIn(lang, owner, seen), lang, owner, seen))
            && (a.Definition? ==> r == ReadDefinition(node, name, a.sym, lang, owner, seen))
            && (a.ClassDeclaration? ==> r == ReadDefinition(node, name, Class, lang, owner, seen))
            && (a.Signature? ==> r == Named(node, name, Method))
            && (a.Outline? ==> r == ReadOutline(node, name, a.sym, lang, owner, seen))
            && (a.Variables? ==> r == ReadVariables(node, n, lang, owner, seen).0)
            && (a.GoConstants? ==> r == ReadConstants(node, n, lang, owner, seen))
            && (a.RustConstant? ==> r == if name.None? then SILENCE
                else ReadDefinition(node, name, Variable, lang, owner, seen))
            && (a.CallSite? ==> r == Then(Refers(owner, Call, FieldText(node, a.calleeField)),
                ReadChildren(node, n, lang, owner, seen)))
            && (a.Heritage? ==> r == ReadHeritage(node, n, a.edge, owner))
            && (a.ImportSite? ==> r == Then(Items([], [], ImportsOf(node), []),
                ReadChildren(node, n, lang, owner, seen)))
            && (a.ExportSite? ==> r == ReadExport(node, lang, owner, seen))
            && (a.Descend? ==> r == ReadChildren(node, n, lang, owner, seen))
  {
    hide *;
    ReadDeclares(node, lang, owner, seen);
    ReadBindings(node, lang, owner, seen);
    ReadRefers(node, lang, owner, seen);
  }

  /** The arms for functions, classes, methods and types. */
  lemma ReadDeclares(node: Node, lang: string, owner: Option<string>, seen: seq<Decl>)
    ensures var a, n, name := Classify(node.kind, lang), |node.children|, FieldText(node, "name");
            var r := Read(node, lang, owner, seen);
            && (a.CFunction? ==> r == ReadDefinition(node, FindIdentifier(node), Function, lang, owner, seen))
            && (a.PlainFunction? ==>
                  r == ReadDefinition(node, name, FunctionKindIn(lang, owner, seen), lang, owner, seen))
            && (a.Definition? ==> r == ReadDefinition(node, name, a.sym, lang, owner, seen))
            && (a.ClassDeclaration? ==> r == ReadDefinition(node, name, Class, lang, owner, seen))
            && (a.Signature? ==> r == Named(node, name, Method))
            && (a.Outline? ==> r == ReadOutline(node, name, a.sym, lang, owner, seen))
            && (!a.CFunction? && !a.PlainFunction? && !a.Definition? && !a.ClassDeclaration?
                && !a.Signature? && !a.Outline? ==>
                  a == ClassifyBinding(node.kind, lang) && r == ReadBinding(node, lang, owner, seen))
  {
    BindingsOnly(node.kind, lang);
    Leaves.FieldIs(node, "name");
    Leaves.IdentifierIs(node);
    hide ReadVariables, ReadConstants, ReadExport, ReadHeritage, ReadChildren, ReadDefinition, ReadOutline, FieldText,
         FindIdentifier, ImportsOf, Named, Then, FunctionKindIn, Firsts, Refers, Leaves.FieldOf,
         Leaves.FirstIdentifier, Leaves.ImportEntries, ReadBinding, ClassifyBinding;
  }

  lemma BindingsOnly(kind: string, lang: string)
    ensures var a := ClassifyBinding(kind, lang);
            !a.CFunction? && !a.PlainFunction? && !a.Definition? && !a.ClassDeclaration? && !a.Signature? && !a.Outline?
  {
    UsesOnly(kind);
    hide ClassifyUse;
  }

  /** The arms for variables and constants. */
  lemma ReadBindings(node: Node, lang: string, owner: Option<string>, seen: seq<Decl>)
    ensures var a, n, name := ClassifyBinding(node.kind, lang), |node.children|, FieldText(node, "name");
            var r := ReadBinding(node, lang, owner, seen);
            && (a.Variables? ==> r == ReadVariables(node, n, lang, owner, seen).0)
            && (a.GoConstants? ==> r == ReadConstants(node, n, lang, owner, seen))
            && (a.RustConstant? ==> r == if name.None? then SILENCE
                else ReadDefinition(node, name, Variable, lang, owner, seen))
            && (!a.Variables? && !a.GoConstants? && !a.RustConstant? ==>
                  || (a == Descend && r == ReadChildren(node, n, lang, owner, seen))
                  || (a == ClassifyUse(node.kind) && r == ReadUse(node, lang, owner, seen)))
  {
    UsesOnly(node.kind);
    Leaves.FieldIs(node, "name");
    hide ReadVariables, ReadConstants, ReadExport, ReadHeritage, ReadChildren, ReadDefinition, ReadOutline, FieldText,
         FindIdentifier, ImportsOf, Named, Then, FunctionKindIn, Firsts, Refers, Leaves.FieldOf,
         Leaves.FirstIdentifier, Leaves.ImportEntries, ReadUse, ClassifyUse;
  }

  lemma UsesOnly(kind: string)
    ensures var a := ClassifyUse(kind); a.CallSite? || a.Heritage? || a.ImportSite? || a.ExportSite? || a.Descend?
  {
  }

  /** The arms for references, imports and exports. */
  lemma ReadRefers(node: Node, lang: string, owner: Option<string>, seen: seq<Decl>)
    ensures var a, n := ClassifyUse(node.kind), |node.children|;
            var r := ReadUse(node, lang, owner, seen);
            && (a.CallSite? ==> r == Then(Refers(owner, Call, FieldText(node, a.calleeField)),
                ReadChildren(node, n, lang, owner, seen)))
            && (a.Heritage? ==> r == ReadHeritage(node, n, a.edge, owner))
            && (a.ImportSite? ==> r == Then(Items([], [], ImportsOf(node), []),
                ReadChildren(node, n, lang, owner, seen)))
            && (a.ExportSite? ==> r == ReadExport(node, lang, owner, seen))
            && (a.Descend? ==> r == ReadChildren(node, n, lang, owner, seen))
  {
    Leaves.FieldIs(node, "function");
    Leaves.FieldIs(node, "constructor");
    Leaves.ImportsAre(node);
    hide ReadVariables, ReadConstants, ReadExport, ReadHeritage, ReadChildren, ReadDefinition, ReadOutline, FieldText,
         FindIdentifier, ImportsOf, Named, Then, FunctionKindIn, Firsts, Refers, Leaves.FieldOf,
         Leaves.FirstIdentifier, Leaves.ImportEntries;
  }

  /** A declaration and, under it, its children. */
  function WalkDefinition(
    node: Node, name: Option<string>, kind: SymbolKind, file: string, lang: string, w: Walk,
    current: Option<nat>): (r: Walk)
    requires Good(w, file) && Known(current, w)
    ensures Good(r, file) && Grows(w, r)
  {
    var d := Declare(w, name, kind, file, node, current);
    WalkChildren(node, |node.children|, file, lang, d.0, d.1)
  }

  /** A symbol whose children stay with the enclosing one. */
  function WalkOutline(
    node: Node, name: Option<string>, kind: SymbolKind, file: string, lang: string, w: Walk,
    current: Option<nat>): (r: Walk)
    requires Good(w, file) && Known(current, w)
    ensures Good(r, file) && Grows(w, r)
  {
    WalkChildren(node, |node.children|, file, lang, Declare(w, name, kind, file, node, current).0, current)
  }

  function WalkCall(
    node: Node, callee: Option<string>, file: string, lang: string, w: Walk, current: Option<nat>): (r: Walk)
    requires Good(w, file) && Known(current, w)
    ensures Good(r, file) && Grows(w, r)
  {
    var w1 := if callee.Some? then AddEdge(w, current, Call, callee.value, file) else w;
    WalkChildren(node, |node.children|, file, lang, w1, current)
  }

  function WalkImports(
    node: Node, imports: seq<Import>, file: string, lang: string, w: Walk, current: Option<nat>): (r: Walk)
    requires Good(w, file) && Known(current, w)
    ensures Good(r, file) && Grows(w, r)
  {
    WalkChildren(node, |node.children|, file, lang, w.(imports := w.imports + imports), current)
  }

  lemma {:induction false} NodeSays(
    node: Node, file: string, lang: string, w: Walk, current: Option<nat>, owner: Option<string>)
    requires Good(w, file) && OwnerIs(w, current, owner)
    ensures Known(current, w)
    ensures Says(w, WalkNode(node, file, lang, w, current), Read(node, lang, owner, DeclsOf(w.symbols)))
    decreases node, 3, 0
  {
    hide *;
    OwnerIsFirst(w, file, current, owner);
    WalkNodeIs(node, file, lang, w, current);
    ReadIs(node, lang, owner, DeclsOf(w.symbols));
    var n, name := |node.children|, FieldText(node, "name");
    match Classify(node.kind, lang)
    case CFunction =>
      DefinitionSays(node, FindIdentifier(node), Function, file, lang, w, current, owner);
    case PlainFunction =>
      KindIsSame(w, file, lang, current, owner);
      DefinitionSays(node, name, FunctionKind(w, lang, current), file, lang, w, current, owner);
    case Definition(kind) =>
      DefinitionSays(node, name, kind, file, lang, w, current, owner);
    case ClassDeclaration =>
      DefinitionSays(node, name, Class, file, lang, w, current, owner);
    case Signature =>
      DeclareSays(w, name, Method, file, node, current, owner);
    case Outline(kind) =>
      OutlineSays(node, name, kind, file, lang, w, current, owner);
    case Variables =>
      VariablesSay(node, n, file, lang, w, current, owner);
    case GoConstants =>
      ConstantsSay(node, n, file, lang, w, current, owner);
    case RustConstant =>
      if name.Some? {
        DefinitionSays(node, name, Variable, file, lang, w, current, owner);
      } else {
        SaysNothing(w);
      }
    case CallSite(field) =>
      CallSays(node, FieldText(node, field), file, lang, w, current, owner);
    case Heritage(kind) =>
      HeritageSays(node, n, kind, file, w, current, owner);
    case ImportSite =>
      ImportSays(node, ImportsOf(node), file, lang, w, current, owner);
    case ExportSite =>
      ExportSays(node, file, lang, w, current, owner);
    case Descend =>
      ChildrenSay(node, n, file, lang, w, current, owner);
  }

  lemma {:induction false} ChildrenSay(
    node: Node, n: nat, file: string, lang: string, w: Walk, current: Option<nat>, owner: Option<string>)
    requires n <= |node.children| && Good(w, file) && OwnerIs(w, current, owner)
    ensures Known(current, w)
    ensures Says(w, WalkChildren(node, n, file, lang, w, current),
      ReadChildren(node, n, lang, owner, DeclsOf(w.symbols)))
    decreases node, 1, n
  {
    hide *;
    OwnerIsFirst(w, file, current, owner);
    ChildrenStep(node, n, file, lang, w, current, owner, DeclsOf(w.symbols));
    if n == 0 {
      SaysNothing(w);
    } else {
      var before := WalkChildren(node, n - 1, file, lang, w, current);
      var read := ReadChildren(node, n - 1, lang, owner, DeclsOf(w.symbols));
      ChildrenSay(node, n - 1, file, lang, w, current, owner);
      OwnerStays(w, before, current, owner);
      SaidDecls(w, before, read);
      NodeSays(node.children[n - 1], file, lang, before, current, owner);
      SaysThen(w, before, WalkChildren(node, n, file, lang, w, current),
               read, Read(node.children[n - 1], lang, owner, DeclsOf(before.symbols)));
    }
  }

  lemma ChildrenStep(
    node: Node, n: nat, file: string, lang: string, w: Walk, current: Option<nat>, owner: Option<string>,
    seen: seq<Decl>)
    requires n <= |node.children| && Good(w, file) && Known(current, w)
    ensures n == 0 ==>
              WalkChildren(node, n, file, lang, w, current) == w && ReadChildren(node, n, lang, owner, seen) == SILENCE
    ensures n > 0 ==>
              var before, read := WalkChildren(node, n - 1, file, lang, w, current),
                ReadChildren(node, n - 1, lang, owner, seen);
              && Known(current, before)
              && WalkChildren(node, n, file, lang, w, current)
                  == WalkNode(node.children[n - 1], file, lang, before, current)
              && ReadChildren(node, n, lang, owner, seen)
                 == Then(read, Read(node.children[n - 1], lang, owner, Firsts(seen, read.decls)))
  {
  }

  lemma SaidDecls(w: Walk, r: Walk, items: Items)
    requires Says(w, r, items)
    ensures DeclsOf(r.symbols) == Firsts(DeclsOf(w.symbols), items.decls)
  {
  }

  lemma {:induction false} DefinitionSays(
    node: Node, name: Option<string>, kind: SymbolKind, file: string, lang: string, w: Walk, current: Option<nat>,
    owner: Option<string>)
    requires Good(w, file) && OwnerIs(w, current, owner)
    ensures Known(current, w)
    ensures Says(w, WalkDefinition(node, name, kind, file, lang, w, current),
                 ReadDefinition(node, name, kind, lang, owner, DeclsOf(w.symbols)))
    decreases node, 2, 0
  {
    hide Says, Good, OwnerIs, Declare, WalkChildren, Then, Named, ReadChildren, Grows, Known, DeclsOf, Firsts;
    DeclareSays(w, name, kind, file, node, current, owner);
    var d := Declare(w, name, kind, file, node, current);
    SaidDecls(w, d.0, Named(node, name, kind));
    var inner := if name.Some? then name else owner;
    ChildrenSay(node, |node.children|, file, lang, d.0, d.1, inner);
    SaysThen(w, d.0, WalkChildren(node, |node.children|, file, lang, d.0, d.1),
             Named(node, name, kind), ReadChildren(node, |node.children|, lang, inner, DeclsOf(d.0.symbols)));
  }

  /** The children of an outline stay with the enclosing symbol. */
  lemma {:induction false} OutlineSays(
    node: Node, name: Option<string>, kind: SymbolKind, file: string, lang: string, w: Walk, current: Option<nat>,
    owner: Option<string>)
    requires Good(w, file) && OwnerIs(w, current, owner)
    ensures Known(current, w)
    ensures Says(w, WalkOutline(node, name, kind, file, lang, w, current),
                 ReadOutline(node, name, kind, lang, owner, DeclsOf(w.symbols)))
    decreases node, 2, 0
  {
    hide Says, Good, OwnerIs, Declare, WalkChildren, Then, Named, ReadChildren, Grows, Known, DeclsOf, Firsts;
    DeclareSays(w, name, kind, file, node, current, owner);
    var d := Declare(w, name, kind, file, node, current);
    SaidDecls(w, d.0, Named(node, name, kind));
    OwnerStays(w, d.0, current, owner);
    ChildrenSay(node, |node.children|, file, lang, d.0, current, owner);
    SaysThen(w, d.0, WalkChildren(node, |node.children|, file, lang, d.0, current),
             Named(node, name, kind), ReadChildren(node, |node.children|, lang, owner, DeclsOf(d.0.symbols)));
  }

  lemma {:induction false} CallSays(
    node: Node, callee: Option<string>, file: string, lang: string, w: Walk, current: Option<nat>,
    owner: Option<string>)
    requires Good(w, file) && OwnerIs(w, current, owner)
    ensures Known(current, w)
    ensures Says(w, WalkCall(node, callee, file, lang, w, current),
                 Then(Refers(owner, Call, callee),
                   ReadChildren(node, |node.children|, lang, owner, DeclsOf(w.symbols))))
    decreases node, 2, 0
  {
    hide Says, Good, OwnerIs, WalkChildren, Then, ReadChildren, Grows, DeclsOf, Firsts;
    OwnerIsFirst(w, file, current, owner);
    var w1 := if callee.Some? then AddEdge(w, current, Call, callee.value, file) else w;
    if callee.Some? {
      EdgeSays(w, current, owner, Call, callee.value, file);
    } else {
      SaysNothing(w);
    }
    SameOwner(w, w1, current, owner);
    ChildrenSay(node, |node.children|, file, lang, w1, current, owner);
    SaysThen(w, w1, WalkChildren(node, |node.children|, file, lang, w1, current),
             Refers(owner, Call, callee), ReadChildren(node, |node.children|, lang, owner, DeclsOf(w1.symbols)));
  }

  lemma SameOwner(a: Walk, b: Walk, current: Option<nat>, owner: Option<string>)
    requires OwnerIs(a, current, owner) && a.symbols == b.symbols
    ensures OwnerIs(b, current, owner)
  {
  }

  lemma {:induction false} HeritageSays(
    node: Node, n: nat, kind: EdgeKind, file: string, w: Walk, current: Option<nat>, owner: Option<string>)
    requires n <= |node.children| && Good(w, file) && OwnerIs(w, current, owner)
    ensures Known(current, w)
    ensures Says(w, HeritageEdges(node, n, kind, file, w, current), ReadHeritage(node, n, kind, owner))
    decreases n
  {
    hide Says, Then, Good, OwnerIs, Known, Grows, AddEdge;
    OwnerIsFirst(w, file, current, owner);
    if n == 0 {
      SaysNothing(w);
    } else {
      var c := node.children[n - 1];
      var before := HeritageEdges(node, n - 1, kind, file, w, current);
      HeritageSays(node, n - 1, kind, file, w, current, owner);
      OwnerStays(w, before, current, owner);
      if c.named && c.text.Some? {
        EdgeSays(before, current, owner, kind, c.text.value, file);
        SaysThen(w, before, HeritageEdges(node, n, kind, file, w, current),
                 ReadHeritage(node, n - 1, kind, owner), Refers(owner, kind, c.text));
      }
    }
  }

  lemma {:induction false} ImportSays(
    node: Node, imports: seq<Import>, file: string, lang: string, w: Walk, current: Option<nat>, owner: Option<string>)
    requires Good(w, file) && OwnerIs(w, current, owner)
    ensures Known(current, w)
    ensures Says(w, WalkImports(node, imports, file, lang, w, current),
                 Then(Items([], [], imports, []), ReadChildren(node, |node.children|, lang, owner, DeclsOf(w.symbols))))
    decreases node, 2, 0
  {
    hide Says, Good, OwnerIs, WalkChildren, Then, ReadChildren, DeclsOf, Firsts;
    OwnerIsFirst(w, file, current, owner);
    var w1 := w.(imports := w.imports + imports);
    ImportsKeepGood(w, w1.imports, file);
    WithImports(w, imports);
    SameOwner(w, w1, current, owner);
    ChildrenSay(node, |node.children|, file, lang, w1, current, owner);
    SaysThen(w, w1, WalkChildren(node, |node.children|, file, lang, w1, current),
             Items([], [], imports, []), ReadChildren(node, |node.children|, lang, owner, DeclsOf(w.symbols)));
  }

  lemma WithImports(w: Walk, imports: seq<Import>)
    ensures Says(w, w.(imports := w.imports + imports), Items([], [], imports, []))
  {
  }

  lemma WithExports(w: Walk, exports: seq<Export>, offers: seq<Offer>)
    requires exports == Collect(w.exports, offers)
    ensures Says(w, w.(exports := exports), Items([], [], [], offers))
  {
  }

  lemma ExportsKeepGood(w: Walk, exports: seq<Export>, file: string)
    requires Good(w, file) && forall x :: x in exports ==> x.symbol.None?
    ensures Good(w.(exports := exports), file)
  {
  }

  lemma GoodExports(w: Walk, file: string)
    requires Good(w, file)
    ensures forall x :: x in w.exports ==> x.symbol.None?
  {
  }

  lemma {:induction false} ExportSays(
    node: Node, file: string, lang: string, w: Walk, current: Option<nat>, owner: Option<string>)
    requires Good(w, file) && OwnerIs(w, current, owner)
    ensures Known(current, w)
    ensures Says(w, WalkExport(node, file, lang, w, current), ReadExport(node, lang, owner, DeclsOf(w.symbols)))
    decreases node, 2, 0
  {
    hide Says, Good, OwnerIs, Known, Then, WalkChildren, ReadChildren, FieldText, ExportNames, Collect, ExportsFrom,
      ExportNew, Listed, Declared, DeclsOf, Firsts, Unquote, Leaves.FieldOf, Leaves.ClauseNames, Leaves.Unquoted;
    OwnerIsFirst(w, file, current, owner);
    GoodExports(w, file);
    var n, seen := |node.children|, DeclsOf(w.symbols);
    Leaves.FieldIs(node, "source");
    Leaves.ClauseNamesAre(node);
    match FieldText(node, "source")
    case Some(src) =>
      Leaves.UnquotedIs(src);
      ListedSays(w, ExportNames(node, n), Some(Unquote(src)));
    case None =>
      var names := ExportNames(node, n);
      ListedSays(w, names, None);
      var w1 := w.(exports := w.exports + ExportsFrom(names, None));
      ExportsKeepGood(w, w1.exports, file);
      SameOwner(w, w1, current, owner);
      OwnerIsFirst(w1, file, current, owner);
      ChildrenSay(node, n, file, lang, w1, current, owner);
      var w2 := WalkChildren(node, n, file, lang, w1, current);
      var inside := ReadChildren(node, n, lang, owner, seen);
      SaysThen(w, w1, w2, Listed(names, None), inside);
      GoodExports(w2, file);
      NewSays(w1, w2, inside);
      SaysThen(w, w2, WalkExport(node, file, lang, w, current), Then(Listed(names, None), inside),
        Declared(Beyond(seen, inside.decls)));
  }

  lemma ListedSays(w: Walk, names: seq<string>, source: Option<string>)
    ensures Says(w, w.(exports := w.exports + ExportsFrom(names, source)), Listed(names, source))
  {
    CollectListed(w.exports, names, source);
    hide ExportsFrom;
    WithExports(w, w.exports + ExportsFrom(names, source), Listed(names, source).exports);
  }

  /** The symbols added since are the names declared first in between. */
  lemma NewSays(w: Walk, r: Walk, items: Items)
    requires Says(w, r, items) && Grows(w, r) && forall x :: x in r.exports ==> x.symbol.None?
    ensures Says(r, r.(exports := ExportNew(r.exports, r.symbols[|w.symbols|..])),
      Declared(Beyond(DeclsOf(w.symbols), items.decls)))
  {
    var added := r.symbols[|w.symbols|..];
    FirstsGrow(DeclsOf(w.symbols), items.decls);
    assert DeclsOf(added) == Beyond(DeclsOf(w.symbols), items.decls);
    CollectDeclared(r.exports, added);
    hide ExportNew, Says;
    WithExports(r, ExportNew(r.exports, added), Declared(DeclsOf(added)).exports);
  }

  lemma {:induction false} VariablesSay(
    node: Node, n: nat, file: string, lang: string, w: Walk, current: Option<nat>, owner: Option<string>)
    requires n <= |node.children| && Good(w, file) && OwnerIs(w, current, owner)
    ensures Known(current, w)
    ensures var r, read := WalkVariables(node, n, file, lang, w, current),
      ReadVariables(node, n, lang, owner, DeclsOf(w.symbols));
            Says(w, r.0, read.0) && OwnerIs(r.0, r.1, read.1)
    decreases node, 1, n
  {
    hide Says, Good, OwnerIs, Known, Grows, DeclareVariable, WalkChildren, ReadChildren, FieldText, Named, Then,
      DeclsOf, Firsts, Has, HasArrow, Leaves.FieldOf, Leaves.KidsOf;
    OwnerIsFirst(w, file, current, owner);
    if n == 0 {
      SaysNothing(w);
    } else {
      var c := node.children[n - 1];
      var before := WalkVariables(node, n - 1, file, lang, w, current);
      var read := ReadVariables(node, n - 1, lang, owner, DeclsOf(w.symbols));
      VariablesSay(node, n - 1, file, lang, w, current, owner);
      if c.kind == "variable_declarator" {
        Leaves.FieldIs(c, "name");
        Leaves.ArrowIs(c);
        SaidDecls(w, before.0, read.0);
        VariableSays(c, file, before.0, before.1, read.1);
        var name := FieldText(c, "name");
        var named := Named(c, name, if HasArrow(c) then Function else Variable);
        var d := DeclareVariable(c, file, before.0, before.1);
        var next := if name.Some? && (HasArrow(c) || !Has(DeclsOf(before.0.symbols), name.value)) then name else read.1;
        SaidDecls(before.0, d.0, named);
        ChildrenSay(c, |c.children|, file, lang, d.0, d.1, next);
        var r := WalkChildren(c, |c.children|, file, lang, d.0, d.1);
        var inside := ReadChildren(c, |c.children|, lang, next, DeclsOf(d.0.symbols));
        SaysThen(before.0, d.0, r, named, inside);
        SaysThen(w, before.0, r, read.0, Then(named, inside));
        OwnerStays(d.0, r, d.1, next);
      }
    }
  }

  lemma {:induction false} ConstantsSay(
    node: Node, n: nat, file: string, lang: string, w: Walk, current: Option<nat>, owner: Option<string>)
    requires n <= |node.children| && Good(w, file) && OwnerIs(w, current, owner)
    ensures Known(current, w)
    ensures Says(w, WalkGoConstants(node, n, file, lang, w, current),
      ReadConstants(node, n, lang, owner, DeclsOf(w.symbols)))
    decreases node, 1, n
  {
    hide Says, Good, OwnerIs, Known, Grows, Declare, WalkChildren, ReadDefinition, FieldText, Then, DeclsOf, Firsts,
      Leaves.FieldOf;
    OwnerIsFirst(w, file, current, owner);
    if n == 0 {
      SaysNothing(w);
    } else {
      var c := node.children[n - 1];
      var before := WalkGoConstants(node, n - 1, file, lang, w, current);
      var read := ReadConstants(node, n - 1, lang, owner, DeclsOf(w.symbols));
      ConstantsSay(node, n - 1, file, lang, w, current, owner);
      OwnerStays(w, before, current, owner);
      Leaves.FieldIs(c, "name");
      if c.kind == "const_spec" && FieldText(c, "name").Some? {
        SaidDecls(w, before, read);
        DefinitionSays(c, FieldText(c, "name"), Variable, file, lang, before, current, owner);
        SaysThen(w, before, WalkGoConstants(node, n, file, lang, w, current), read,
                 ReadDefinition(c, FieldText(c, "name"), Variable, lang, owner, DeclsOf(before.symbols)));
      }
    }
  }
}
