/**
 * What follows for whole files and for single definitions (crates/visp-codegraph/src/parser.rs): a
 * parse is determined by its tree, and who owns an edge.
 */
module ReadingFiles {
  import opened Collections
  import opened Graph
  import opened WalkSpec
  import opened Reading
  import opened ReadingWalk
  import Leaves

  // ---- Who owns a reference ----

  ghost predicate OwnerAmong(decls: seq<Decl>, owner: Option<string>, inner: Option<string>) {
    inner == owner || (inner.Some? && Has(decls, inner.value))
  }

  /** References belong to the enclosing owner or to a name declared among the items. */
  ghost predicate Within(items: Items, owner: Option<string>) {
    forall r :: r in items.refs ==> OwnerAmong(items.decls, owner, r.owner)
  }

  lemma AmongMore(a: seq<Decl>, b: seq<Decl>, owner: Option<string>, inner: Option<string>, last: Option<string>)
    requires OwnerAmong(a, owner, inner) && OwnerAmong(b, inner, last)
    ensures OwnerAmong(a + b, owner, last)
  {
    if last.Some? {
      HasConcat(a, b, last.value);
    }
  }

  lemma WithinThen(x: Items, y: Items, owner: Option<string>, inner: Option<string>)
    requires Within(x, owner) && Within(y, inner) && OwnerAmong(x.decls, owner, inner)
    ensures Within(Then(x, y), owner)
  {
    forall r | r in x.refs + y.refs
      ensures OwnerAmong(x.decls + y.decls, owner, r.owner)
    {
      if r in x.refs {
        AmongMore(x.decls, y.decls, owner, r.owner, r.owner);
      } else {
        AmongMore(x.decls, y.decls, owner, inner, r.owner);
      }
    }
  }

  lemma NamedIsAmong(node: Node, name: Option<string>, kind: SymbolKind, owner: Option<string>)
    ensures Within(Named(node, name, kind), owner)
    ensures OwnerAmong(Named(node, name, kind).decls, owner, if name.Some? then name else owner)
  {
    if name.Some? {
      assert Decl(name.value, kind, node.row + 1, node.column + 1) in Named(node, name, kind).decls;
    }
  }

  lemma SimpleWithin(owner: Option<string>, kind: EdgeKind, target: Option<string>)
    ensures Within(SILENCE, owner) && Within(Refers(owner, kind, target), owner)
    ensures forall decls :: OwnerAmong(decls, owner, owner)
    ensures forall items: Items :: items.refs == [] ==> Within(items, owner)
  {
  }

  lemma {:induction false} ReadWithin(node: Node, lang: string, owner: Option<string>, seen: seq<Decl>)
    ensures Within(Read(node, lang, owner, seen), owner)
    decreases node, 3, 0
  {
    hide *;
    ReadIs(node, lang, owner, seen);
    var n, name := |node.children|, FieldText(node, "name");
    SimpleWithin(owner, Call, None);
    match Classify(node.kind, lang)
    case CFunction => DefinitionWithin(node, FindIdentifier(node), Function, lang, owner, seen);
    case PlainFunction => DefinitionWithin(node, name, FunctionKindIn(lang, owner, seen), lang, owner, seen);
    case Definition(kind) => DefinitionWithin(node, name, kind, lang, owner, seen);
    case ClassDeclaration => DefinitionWithin(node, name, Class, lang, owner, seen);
    case RustConstant =>
      DefinitionWithin(node, name, Variable, lang, owner, seen);
    case Signature =>
      NamedIsAmong(node, name, Method, owner);
    case Outline(kind) => OutlineWithin(node, name, kind, lang, owner, seen);
    case Variables => VariablesWithin(node, n, lang, owner, seen);
    case GoConstants => ConstantsWithin(node, n, lang, owner, seen);
    case CallSite(field) =>
      SimpleWithin(owner, Call, FieldText(node, field));
      ChildrenWithin(node, n, lang, owner, seen);
      WithinThen(Refers(owner, Call, FieldText(node, field)), ReadChildren(node, n, lang, owner, seen), owner, owner);
    case Heritage(kind) => HeritageWithin(node, n, kind, owner);
    case ImportSite =>
      ChildrenWithin(node, n, lang, owner, seen);
      WithinThen(Items([], [], ImportsOf(node), []), ReadChildren(node, n, lang, owner, seen), owner, owner);
    case ExportSite => ExportWithin(node, lang, owner, seen);
    case Descend => ChildrenWithin(node, n, lang, owner, seen);
  }

  lemma {:induction false} DefinitionWithin(
    node: Node, name: Option<string>, kind: SymbolKind, lang: string, owner: Option<string>, seen: seq<Decl>)
    ensures Within(ReadDefinition(node, name, kind, lang, owner, seen), owner)
    decreases node, 2, 0
  {
    hide Within, Then, ReadChildren, Named, Firsts, OwnerAmong;
    var named := Named(node, name, kind);
    var inner := if name.Some? then name else owner;
    NamedIsAmong(node, name, kind, owner);
    ChildrenWithin(node, |node.children|, lang, inner, Firsts(seen, named.decls));
    WithinThen(named, ReadChildren(node, |node.children|, lang, inner, Firsts(seen, named.decls)), owner, inner);
  }

  lemma {:induction false} OutlineWithin(
    node: Node, name: Option<string>, kind: SymbolKind, lang: string, owner: Option<string>, seen: seq<Decl>)
    ensures Within(ReadOutline(node, name, kind, lang, owner, seen), owner)
    decreases node, 2, 0
  {
    hide Within, Then, ReadChildren, Named, Firsts, OwnerAmong;
    var named := Named(node, name, kind);
    SimpleWithin(owner, Call, None);
    NamedIsAmong(node, name, kind, owner);
    ChildrenWithin(node, |node.children|, lang, owner, Firsts(seen, named.decls));
    WithinThen(named, ReadChildren(node, |node.children|, lang, owner, Firsts(seen, named.decls)), owner, owner);
  }

  lemma {:induction false} ChildrenWithin(node: Node, n: nat, lang: string, owner: Option<string>, seen: seq<Decl>)
    requires n <= |node.children|
    ensures Within(ReadChildren(node, n, lang, owner, seen), owner)
    decreases node, 1, n
  {
    hide Within, Then, Read, Firsts, OwnerAmong;
    SimpleWithin(owner, Call, None);
    if n > 0 {
      var before := ReadChildren(node, n - 1, lang, owner, seen);
      ChildrenWithin(node, n - 1, lang, owner, seen);
      ReadWithin(node.children[n - 1], lang, owner, Firsts(seen, before.decls));
      WithinThen(before, Read(node.children[n - 1], lang, owner, Firsts(seen, before.decls)), owner, owner);
    }
  }

  lemma {:induction false} VariablesWithin(node: Node, n: nat, lang: string, owner: Option<string>, seen: seq<Decl>)
    requires n <= |node.children|
    ensures var r := ReadVariables(node, n, lang, owner, seen); Within(r.0, owner) && OwnerAmong(r.0.decls, owner, r.1)
    decreases node, 1, n
  {
    hide Within, Then, ReadChildren, Named, Firsts, OwnerAmong, Has, Leaves.FieldOf, Leaves.KidsOf;
    SimpleWithin(owner, Call, None);
    if n > 0 {
      var c := node.children[n - 1];
      var (before, last) := ReadVariables(node, n - 1, lang, owner, seen);
      VariablesWithin(node, n - 1, lang, owner, seen);
      if c.kind == "variable_declarator" {
        var here := Firsts(seen, before.decls);
        var name := Leaves.FieldOf(c, "name");
        var arrow := Leaves.KidsOf(c, "arrow_function") != [];
        var kind := if arrow then Function else Variable;
        var named := Named(c, name, kind);
        var next := if name.Some? && (arrow || !Has(here, name.value)) then name else last;
        var inside := ReadChildren(c, |c.children|, lang, next, Firsts(here, named.decls));
        NamedIsAmong(c, name, kind, last);
        SimpleWithin(last, Call, None);
        ChildrenWithin(c, |c.children|, lang, next, Firsts(here, named.decls));
        WithinThen(named, inside, last, next);
        WithinThen(before, Then(named, inside), owner, last);
        NextAmong(before, named, inside, owner, last, next);
      }
    }
  }

  lemma NextAmong(x: Items, y: Items, z: Items, owner: Option<string>, last: Option<string>, next: Option<string>)
    requires OwnerAmong(x.decls, owner, last) && OwnerAmong(y.decls, last, next)
    ensures OwnerAmong(Then(x, Then(y, z)).decls, owner, next)
  {
    AmongMore(y.decls, z.decls, last, next, next);
    AmongMore(x.decls, y.decls + z.decls, owner, last, next);
  }

  lemma {:induction false} ConstantsWithin(node: Node, n: nat, lang: string, owner: Option<string>, seen: seq<Decl>)
    requires n <= |node.children|
    ensures Within(ReadConstants(node, n, lang, owner, seen), owner)
    decreases node, 1, n
  {
    hide Within, Then, ReadDefinition, Firsts, OwnerAmong, Leaves.FieldOf;
    SimpleWithin(owner, Call, None);
    if n > 0 {
      var c := node.children[n - 1];
      var before := ReadConstants(node, n - 1, lang, owner, seen);
      ConstantsWithin(node, n - 1, lang, owner, seen);
      var name := Leaves.FieldOf(c, "name");
      if c.kind == "const_spec" && name.Some? {
        var here := Firsts(seen, before.decls);
        DefinitionWithin(c, name, Variable, lang, owner, here);
        WithinThen(before, ReadDefinition(c, name, Variable, lang, owner, here), owner, owner);
      }
    }
  }

  lemma {:induction false} HeritageWithin(node: Node, n: nat, kind: EdgeKind, owner: Option<string>)
    requires n <= |node.children|
    ensures Within(ReadHeritage(node, n, kind, owner), owner)
    decreases n
  {
    hide Within, Then, OwnerAmong, Refers;
    SimpleWithin(owner, kind, None);
    if n > 0 {
      HeritageWithin(node, n - 1, kind, owner);
      SimpleWithin(owner, kind, node.children[n - 1].text);
      WithinThen(ReadHeritage(node, n - 1, kind, owner), Refers(owner, kind, node.children[n - 1].text), owner, owner);
    }
  }

  lemma {:induction false} ExportWithin(node: Node, lang: string, owner: Option<string>, seen: seq<Decl>)
    ensures Within(ReadExport(node, lang, owner, seen), owner)
    decreases node, 2, 0
  {
    hide Within, Then, ReadChildren, OwnerAmong, Leaves.FieldOf, Leaves.ClauseNames, Leaves.Unquoted, Beyond;
    var n := |node.children|;
    SimpleWithin(owner, Call, None);
    if Leaves.FieldOf(node, "source").None? {
      var inside := ReadChildren(node, n, lang, owner, seen);
      var names := Listed(Leaves.ClauseNames(node.children), None);
      ChildrenWithin(node, n, lang, owner, seen);
      WithinThen(names, inside, owner, owner);
      WithinThen(Then(names, inside), Declared(Beyond(seen, inside.decls)), owner, owner);
    }
  }

  // ---- Files, and what belongs to a definition ----

  /**
   * For every tree the parse is what the tree says: its symbols are the declarations with kind and
   * position, the first of each name; its edges are the references, from the symbol of the innermost
   * enclosing name; its imports and exports are those of the statements; all in the order of the text.
   */
  lemma ParseSaysWhatTheTreeSays(file: string, lang: string, root: Node)
    ensures var r, said := WalkSpec.ParseFile(file, lang, root), ReadChildren(root, |root.children|, lang, None, []);
            var decls := Firsts([], said.decls);
            && DeclsOf(r.symbols) == decls
            && (forall i :: 0 <= i < |r.symbols| ==> r.symbols[i].id == i && r.symbols[i].file == file)
            && (forall s :: s in r.symbols ==> s.signature.None? && s.docstring.None?)
            && r.edges == Map(said.refs, EdgeFor(decls))
            && r.imports == said.imports
            && r.exports == Collect([], said.exports)
  {
    hide WalkChildren, ReadChildren, Firsts, EdgeFor, Collect;
    assert DeclsOf([]) == [];
    ChildrenSay(root, |root.children|, file, lang, START, None, None);
  }

  /** The source of an edge is the first symbol with the name of the innermost enclosing declaration. */
  lemma EdgesBelongToFirst(file: string, lang: string, root: Node, i: nat)
    requires i < |ReadChildren(root, |root.children|, lang, None, []).refs|
    ensures var r, ref := WalkSpec.ParseFile(file, lang, root),
      ReadChildren(root, |root.children|, lang, None, []).refs[i];
            && i < |r.edges| && r.edges[i].kind == ref.kind && r.edges[i].targetName == Some(ref.target)
            && var s := r.edges[i].sourceId;
            && (ref.owner.None? ==> s == 0)
            && (ref.owner.Some? ==>
                  s < |r.symbols| && r.symbols[s].name == ref.owner.value
                  && forall j :: 0 <= j < s ==> r.symbols[j].name != ref.owner.value)
  {
    hide WalkSpec.ParseFile, ReadChildren, Firsts, Collect, Says;
    ParseSaysWhatTheTreeSays(file, lang, root);
    var r, said := WalkSpec.ParseFile(file, lang, root), ReadChildren(root, |root.children|, lang, None, []);
    var decls := Firsts([], said.decls);
    FileOwnersKnown(file, lang, root);
    assert said.refs[i] in said.refs;
    assert forall j :: 0 <= j < |r.symbols| ==> decls[j].name == r.symbols[j].name;
  }

  lemma FileOwnersKnown(file: string, lang: string, root: Node)
    ensures var said := ReadChildren(root, |root.children|, lang, None, []);
      OwnersKnown(Firsts([], said.decls), said.refs)
  {
    hide WalkChildren, ReadChildren, Firsts, OwnersKnown;
    assert DeclsOf([]) == [];
    ChildrenSay(root, |root.children|, file, lang, START, None, None);
  }

  /** The name a definition is entered under. */
  function DefinedName(node: Node, lang: string): Option<string> {
    match Classify(node.kind, lang)
    case CFunction => FindIdentifier(node)
    case PlainFunction => FieldText(node, "name")
    case Definition(_) => FieldText(node, "name")
    case ClassDeclaration => FieldText(node, "name")
    case _ => None
  }

  /**
   * Where the edges written inside a named definition go. Each belongs to the definition's own name
   * or to one declared inside it. It leaves the definition, for an earlier symbol, exactly when that
   * name was taken before; otherwise the definition's own edges have the new symbol's id.
   */
  lemma DefinitionOwnsItsEdges(
    node: Node, file: string, lang: string, w: Walk, current: Option<nat>, owner: Option<string>, i: nat)
    requires Good(w, file) && OwnerIs(w, current, owner) && DefinedName(node, lang).Some?
    requires i < |Read(node, lang, owner, DeclsOf(w.symbols)).refs|
    ensures Known(current, w)
    ensures var said, r, n := Read(node, lang, owner, DeclsOf(w.symbols)), WalkNode(node, file, lang, w, current),
      DefinedName(node, lang);
            var own := said.refs[i].owner;
            && |w.edges| + i < |r.edges| && own.Some? && Has(said.decls, own.value)
            && var id := r.edges[|w.edges| + i].sourceId;
            && id < |r.symbols| && r.symbols[id].name == own.value
            && (id < |w.symbols| <==> (own.value, file) in w.dedup)
            && (own == n ==> id <= |w.symbols|)
  {
    OwnerIsFirst(w, file, current, owner);
    NodeSays(node, file, lang, w, current, owner);
    OwnedInside(node, lang, owner, DeclsOf(w.symbols));
    var said, r := Read(node, lang, owner, DeclsOf(w.symbols)), WalkNode(node, file, lang, w, current);
    assert said.refs[i] in said.refs;
    hide Good, OwnerIs, WalkNode, Read, DefinedName, Firsts, Collect, DeclsOf, Has;
    KnownName(w, file, said.refs[i].owner.value);
    FirstsGrow(DeclsOf(w.symbols), said.decls);
    SourcePlace(w, r, said, said.refs[i].owner.value, DefinedName(node, lang).value);
  }

  /** In a named definition every reference has an owner declared in it, and its own name is declared first. */
  lemma OwnedInside(node: Node, lang: string, owner: Option<string>, seen: seq<Decl>)
    requires DefinedName(node, lang).Some?
    ensures var said := Read(node, lang, owner, seen);
            && said.decls != [] && said.decls[0].name == DefinedName(node, lang).value
            && forall r :: r in said.refs ==> r.owner.Some? && Has(said.decls, r.owner.value)
  {
    hide Read, ReadDefinition, Has, FieldText, FindIdentifier, FunctionKindIn;
    ReadIs(node, lang, owner, seen);
    var a, name := Classify(node.kind, lang), DefinedName(node, lang).value;
    DefinitionOwns(node, name, if a.Definition? then a.sym else if a.ClassDeclaration? then Class
                               else if a.CFunction? then Function
                                 else FunctionKindIn(lang, owner, seen), lang, owner, seen);
  }

  lemma DefinitionOwns(node: Node, name: string, kind: SymbolKind, lang: string, owner: Option<string>, seen: seq<Decl>)
    ensures var said := ReadDefinition(node, Some(name), kind, lang, owner, seen);
            && said.decls != [] && said.decls[0].name == name
            && forall r :: r in said.refs ==> r.owner.Some? && Has(said.decls, r.owner.value)
  {
    hide ReadChildren, Firsts, Has;
    var named := Named(node, Some(name), kind);
    var here := Firsts(seen, named.decls);
    var inside := ReadChildren(node, |node.children|, lang, Some(name), here);
    ChildrenWithin(node, |node.children|, lang, Some(name), here);
    NamedIsAmong(node, Some(name), kind, None);
    forall r | r in inside.refs
      ensures r.owner.Some? && Has(named.decls + inside.decls, r.owner.value)
    {
      assert OwnerAmong(inside.decls, Some(name), r.owner);
      HasConcat(named.decls, inside.decls, r.owner.value);
    }
    assert [] + inside.refs == inside.refs;
  }

  /** The place of a name among the symbols, old and new. */
  lemma SourcePlace(w: Walk, r: Walk, said: Items, name: string, first: string)
    requires DeclsOf(r.symbols) == Firsts(DeclsOf(w.symbols), said.decls)
    requires said.decls != [] && said.decls[0].name == first && Has(DeclsOf(r.symbols), name)
    ensures var id := At(DeclsOf(r.symbols), name);
            && id < |r.symbols| && r.symbols[id].name == name
            && (id < |w.symbols| <==> Has(DeclsOf(w.symbols), name))
            && (name == first ==> id <= |w.symbols|)
  {
    var before, now := DeclsOf(w.symbols), DeclsOf(r.symbols);
    var d := said.decls[0];
    FirstsGrow(before, said.decls);
    assert said.decls == [d] + said.decls[1..];
    FirstsConcat(before, [d], said.decls[1..]);
    FirstsGrow(Firsts(before, [d]), said.decls[1..]);
    FirstOnce(before, d);
    assert now[At(now, name)] == DeclOf(r.symbols[At(now, name)]);
    if Has(before, name) {
      AtStays(before, now, name);
    } else {
      assert forall i :: 0 <= i < |before| ==> before[i] in before;
      assert name == first ==> now[|before|] == d;
    }
    hide Has, Firsts;
  }
}
