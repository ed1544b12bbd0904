/**
 * What is written at a node of the syntax tree: its fields, the children of a kind, the identifiers
 * inside it and the names of its import and export clauses. The lookups of
 * crates/visp-codegraph/src/parser.rs find exactly this.
 */
module Leaves {
  import opened Collections
  import opened Graph
  import opened WalkSpec

  function InField(f: string): Node -> bool {
    (c: Node) => c.field == f
  }

  function OfKind(kind: string): Node -> bool {
    (c: Node) => c.kind == kind
  }

  function KidsOf(node: Node, kind: string): seq<Node> {
    Filter(node.children, OfKind(kind))
  }

  /** The text of the first child in a field. */
  function FieldOf(node: Node, f: string): Option<string> {
    var hits := Filter(node.children, InField(f));
    if hits == [] then None else hits[0].text
  }

  /** The name field, or else every identifier with a text and every one inside a named child, in order. */
  function Identifiers(node: Node): seq<string>
    decreases node, 1, 0
  {
    match FieldOf(node, "name")
    case Some(name) => [name]
    case None => IdentifiersIn(node, |node.children|)
  }

  function IdentifiersIn(node: Node, n: nat): seq<string>
    requires n <= |node.children|
    decreases node, 0, n
  {
    if n == 0 then []
    else
      var c := node.children[n - 1];
      IdentifiersIn(node, n - 1)
      + if c.kind == "identifier" && c.text.Some? then [c.text.value] else if c.named then Identifiers(c) else []
  }

  function FirstIdentifier(node: Node): Option<string> {
    if Identifiers(node) == [] then None else Some(Identifiers(node)[0])
  }

  /** The text without the characters `c` around it. */
  function Stripped(s: string, c: char): string {
    if s == [] then []
    else if s[0] == c then Stripped(s[1..], c)
    else if s[|s| - 1] == c then Stripped(s[..|s| - 1], c)
    else s
  }

  function Unquoted(s: string): string {
    Stripped(Stripped(s, '\''), '\"')
  }

  function NamedSpec(kind: string): Node -> bool {
    (c: Node) => c.kind == kind && FieldOf(c, "name").Some?
  }

  function NameOfSpec(c: Node): string {
    match FieldOf(c, "name") case Some(name) => name case None => ""
  }

  /** The names of the specifiers of a clause. */
  function Specified(clause: Node, kind: string): seq<string> {
    Map(Filter(clause.children, NamedSpec(kind)), NameOfSpec)
  }

  /** The names of the export clauses among the nodes. */
  function ClauseNames(nodes: seq<Node>): seq<string> {
    if nodes == [] then []
    else
      (if nodes[0].kind == "export_clause" then Specified(nodes[0], "export_specifier") else [])
      + ClauseNames(nodes[1..])
  }

  /** An import statement: the named imports, the namespace and the default import of its clause. */
  function ImportEntries(node: Node): seq<Import> {
    var source, clauses := FieldOf(node, "source"), KidsOf(node, "import_clause");
    if source.None? || clauses == [] then []
    else
      var lists := KidsOf(clauses[0], "named_imports");
      var spaces := KidsOf(clauses[0], "namespace_import");
      var defaults := KidsOf(clauses[0], "identifier");
      var names := (if lists == [] then [] else Specified(lists[0], "import_specifier"))
                   + (if spaces == [] then [] else Only(FieldOf(spaces[0], "name")))
                   + (if defaults == [] then [] else Only(defaults[0].text));
      Map(names, (name: string) => (name, Unquoted(source.value)))
  }

  function Only(name: Option<string>): seq<string> {
    match name case Some(n) => [n] case None => []
  }

  // ---- The lookups of the parser ----

  lemma FilterSuffix(s: seq<Node>, i: nat, p: Node -> bool)
    requires i < |s|
    ensures Filter(s[i..], p) == (if p(s[i]) then [s[i]] else []) + Filter(s[i + 1..], p)
  {
    assert s[i..] == [s[i]] + s[i + 1..];
    FilterConcat([s[i]], s[i + 1..], p);
    FilterSingle(s[i], p);
  }

  lemma {:induction false} FieldFound(node: Node, f: string, i: nat)
    requires i <= |node.children|
    ensures var hits := Filter(node.children[i..], InField(f));
            ChildByField(node, f, i) == if hits == [] then None else Some(hits[0])
    decreases |node.children| - i
  {
    if i < |node.children| {
      FilterSuffix(node.children, i, InField(f));
      FieldFound(node, f, i + 1);
    }
  }

  lemma FieldIs(node: Node, f: string)
    ensures FieldText(node, f) == FieldOf(node, f)
  {
    FieldFound(node, f, 0);
    assert node.children[0..] == node.children;
  }

  lemma {:induction false} KindFound(node: Node, kind: string, i: nat)
    requires i <= |node.children|
    ensures var hits := Filter(node.children[i..], OfKind(kind));
            ChildOfKind(node, kind, i) == if hits == [] then None else Some(hits[0])
    decreases |node.children| - i
  {
    if i < |node.children| {
      FilterSuffix(node.children, i, OfKind(kind));
      KindFound(node, kind, i + 1);
    }
  }

  lemma KindIs(node: Node, kind: string)
    ensures ChildOfKind(node, kind) == if KidsOf(node, kind) == [] then None else Some(KidsOf(node, kind)[0])
  {
    KindFound(node, kind, 0);
    assert node.children[0..] == node.children;
  }

  lemma ArrowIs(node: Node)
    ensures HasArrow(node) <==> KidsOf(node, "arrow_function") != []
  {
    var kids := KidsOf(node, "arrow_function");
    assert kids != [] ==> kids[0] in kids;
    assert forall c :: c in node.children && c.kind == "arrow_function" ==> c in kids;
  }

  /** The search for an identifier finds the first of them. */
  lemma {:induction false} IdentifierIs(node: Node)
    ensures FindIdentifier(node) == FirstIdentifier(node)
    decreases node, 1, 0
  {
    FieldIs(node, "name");
    if FieldOf(node, "name").None? {
      IdentifierFrom(node, 0);
    }
  }

  lemma {:induction false} IdentifierFrom(node: Node, i: nat)
    requires i <= |node.children| && IdentifiersIn(node, i) == []
    ensures FindIdentifierFrom(node, i)
         == if IdentifiersIn(node, |node.children|) == [] then None else Some(IdentifiersIn(node, |node.children|)[0])
    decreases node, 0, |node.children| - i
  {
    if i < |node.children| {
      var c := node.children[i];
      if c.named {
        IdentifierIs(c);
      }
      InMore(node, i + 1, |node.children|);
      if IdentifiersIn(node, i + 1) == [] {
        IdentifierFrom(node, i + 1);
      }
    }
  }

  lemma {:induction false} InMore(node: Node, i: nat, n: nat)
    requires i <= n <= |node.children|
    ensures IdentifiersIn(node, i) <= IdentifiersIn(node, n)
    decreases n
  {
    if i < n {
      InMore(node, i, n - 1);
    }
  }

  lemma {:induction false} StrippedEnd(s: string, c: char)
    requires s != [] && s[0] != c
    ensures TrimEnd(s, c) == Stripped(s, c)
  {
    if s[|s| - 1] == c {
      StrippedEnd(s[..|s| - 1], c);
    }
  }

  lemma {:induction false} StrippedIs(s: string, c: char)
    ensures Trim(s, c) == Stripped(s, c)
  {
    if s != [] {
      if s[0] == c {
        StrippedIs(s[1..], c);
      } else {
        StrippedEnd(s, c);
      }
    }
  }

  lemma UnquotedIs(s: string)
    ensures Unquote(s) == Unquoted(s)
  {
    StrippedIs(s, '\'');
    StrippedIs(Stripped(s, '\''), '\"');
  }

  /** Quotes around a text that neither begins nor ends with one go, and nothing else. */
  lemma {:induction false} QuotesGo(before: string, text: string, after: string, c: char)
    requires (forall x :: x in before || x in after ==> x == c)
    requires text != [] ==> text[0] != c && text[|text| - 1] != c
    ensures Stripped(before + text + after, c) == text
    decreases |before| + |after|
  {
    var s := before + text + after;
    if before != [] {
      assert before[0] in before && forall x :: x in before[1..] ==> x in before;
      assert s[1..] == before[1..] + text + after;
      QuotesGo(before[1..], text, after, c);
    } else if after != [] {
      assert after[0] in after && after[|after| - 1] in after;
      assert forall x :: x in after[1..] || x in after[..|after| - 1] ==> x in after;
      if text == [] {
        assert s[1..] == [] + text + after[1..];
        QuotesGo([], text, after[1..], c);
      } else {
        assert s[..|s| - 1] == [] + text + after[..|after| - 1];
        QuotesGo([], text, after[..|after| - 1], c);
      }
    } else {
      assert s == text;
    }
  }

  lemma SpecStep(clause: Node, kind: string, n: nat)
    requires 0 < n <= |clause.children|
    ensures SpecNames(clause, kind, n)
         == SpecNames(clause, kind, n - 1) + Map(Filter([clause.children[n - 1]], NamedSpec(kind)), NameOfSpec)
  {
    var c := clause.children[n - 1];
    FieldIs(c, "name");
    FilterSingle(c, NamedSpec(kind));
    hide FieldOf, FieldText, Filter;
  }

  lemma {:induction false} SpecsAre(clause: Node, kind: string, n: nat)
    requires n <= |clause.children|
    ensures SpecNames(clause, kind, n) == Map(Filter(clause.children[..n], NamedSpec(kind)), NameOfSpec)
  {
    hide FieldOf, FieldText, NamedSpec, NameOfSpec;
    if n > 0 {
      hide SpecNames, Filter, Map;
      var c := clause.children[n - 1];
      SpecsAre(clause, kind, n - 1);
      SpecStep(clause, kind, n);
      assert clause.children[..n] == clause.children[..n - 1] + [c];
      FilterConcat(clause.children[..n - 1], [c], NamedSpec(kind));
      MapConcat(Filter(clause.children[..n - 1], NamedSpec(kind)), Filter([c], NamedSpec(kind)), NameOfSpec);
    }
  }

  lemma SpecifiedIs(clause: Node, kind: string)
    ensures SpecNames(clause, kind, |clause.children|) == Specified(clause, kind)
  {
    SpecsAre(clause, kind, |clause.children|);
    assert clause.children[..|clause.children|] == clause.children;
  }

  lemma {:induction false} ClausesJoin(a: seq<Node>, b: seq<Node>)
    ensures ClauseNames(a + b) == ClauseNames(a) + ClauseNames(b)
  {
    hide Specified;
    if a == [] {
      assert a + b == b;
    } else {
      assert (a + b)[1..] == a[1..] + b;
      ClausesJoin(a[1..], b);
    }
  }

  lemma {:induction false} ClausesAre(node: Node, n: nat)
    requires n <= |node.children|
    ensures ExportNames(node, n) == ClauseNames(node.children[..n])
  {
    hide Specified;
    if n > 0 {
      var c := node.children[n - 1];
      ClausesAre(node, n - 1);
      SpecifiedIs(c, "export_specifier");
      assert node.children[..n] == node.children[..n - 1] + [c];
      ClausesJoin(node.children[..n - 1], [c]);
      assert ClauseNames([c][1..]) == [];
    }
  }

  lemma ClauseNamesAre(node: Node)
    ensures ExportNames(node, |node.children|) == ClauseNames(node.children)
  {
    ClausesAre(node, |node.children|);
    assert node.children[..|node.children|] == node.children;
  }

  lemma ImportsAre(node: Node)
    ensures ImportsOf(node) == ImportEntries(node)
  {
    hide KidsOf, FieldOf, FieldText, ChildOfKind, Specified, SpecNames, Unquote, Unquoted;
    FieldIs(node, "source");
    KindIs(node, "import_clause");
    if FieldOf(node, "source").Some? && KidsOf(node, "import_clause") != [] {
      UnquotedIs(FieldOf(node, "source").value);
      ClauseIs(KidsOf(node, "import_clause")[0]);
    }
  }

  lemma ClauseIs(clause: Node)
    ensures var lists := KidsOf(clause, "named_imports");
            NamedImports(clause) == if lists == [] then [] else Specified(lists[0], "import_specifier")
    ensures var spaces := KidsOf(clause, "namespace_import");
            NamespaceImport(clause) == if spaces == [] then [] else Only(FieldOf(spaces[0], "name"))
    ensures var defaults := KidsOf(clause, "identifier");
            DefaultImport(clause) == if defaults == [] then [] else Only(defaults[0].text)
  {
    hide KidsOf, FieldOf, FieldText, ChildOfKind, Specified, SpecNames;
    KindIs(clause, "named_imports");
    KindIs(clause, "namespace_import");
    KindIs(clause, "identifier");
    if KidsOf(clause, "named_imports") != [] {
      SpecifiedIs(KidsOf(clause, "named_imports")[0], "import_specifier");
    }
    if KidsOf(clause, "namespace_import") != [] {
      FieldIs(KidsOf(clause, "namespace_import")[0], "name");
    }
  }
}
