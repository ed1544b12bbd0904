/**
 * What the tables show of a file, read off its syntax tree: after an update or a build its symbols,
 * edges, imports and exports are exactly what the tree says in the language of the file
 * (crates/visp-codegraph/src/parser.rs and index.rs).
 */
module TreeViews {
  import opened Collections
  import opened Graph
  import opened Languages
  import opened Tables
  import opened IndexSpec
  import opened IndexRuns
  import opened Reading
  import opened ReadingFiles
  import WalkSpec

  /** A declaration as a symbol of the file. */
  function SymbolFor(file: string): Decl -> Symbol {
    (d: Decl) => Symbol(0, d.name, d.kind, file, d.line, d.column, None, None)
  }

  /** A reference by names; one from outside every declaration counts as the first declaration's. */
  function EdgeOf(first: string): Ref -> AbsEdge {
    (r: Ref) => AbsEdge(if r.owner.Some? then r.owner.value else first, Some(r.target), r.kind)
  }

  /** The tree in tables: a file without declarations has no edges either. */
  function TreeView(file: string, lang: string, root: WalkSpec.Node): FileView {
    var said := ReadChildren(root, |root.children|, lang, None, []);
    var decls := Firsts([], said.decls);
    FileView(
      set d | d in decls :: SymbolFor(file)(d),
      if decls == [] then [] else Map(said.refs, EdgeOf(decls[0].name)),
      said.imports,
      Collect([], said.exports),
      Some(FileRow(lang, |decls|)))
  }

  /** What a file with this source shows: nothing, unless it can be parsed and its language is supported. */
  function SourceView(file: string, source: Source): FileView {
    match source
    case Parsable(root) =>
      if LanguageOf(file).Some? then TreeView(file, LanguageOf(file).value, root) else NOTHING
    case _ => NOTHING
  }

  function DiskView(disk: Disk, file: string): FileView {
    if file in disk then SourceView(file, disk[file]) else NOTHING
  }

  lemma SymbolsAgree(file: string, symbols: seq<Symbol>)
    requires forall s :: s in symbols ==> s.file == file && s.signature.None? && s.docstring.None?
    ensures (set s | s in symbols :: Anonymous(s)) == set d | d in DeclsOf(symbols) :: SymbolFor(file)(d)
  {
    var decls := DeclsOf(symbols);
    forall s | s in symbols
      ensures exists d :: d in decls && SymbolFor(file)(d) == Anonymous(s)
    {
      var i :| 0 <= i < |symbols| && symbols[i] == s;
      assert decls[i] in decls;
    }
    forall d | d in decls
      ensures exists s :: s in symbols && Anonymous(s) == SymbolFor(file)(d)
    {
      var i :| 0 <= i < |decls| && decls[i] == d;
      assert symbols[i] in symbols;
    }
  }

  lemma EdgesAgree(r: ParseResult, refs: seq<Ref>)
    requires OwnersKnown(DeclsOf(r.symbols), refs) && r.edges == Map(refs, EdgeFor(DeclsOf(r.symbols)))
    ensures Map(Filter(r.edges, HasSource(r)), EdgeByName(r))
         == if r.symbols == [] then [] else Map(refs, EdgeOf(r.symbols[0].name))
  {
    var decls := DeclsOf(r.symbols);
    if r.symbols == [] {
      FilterNone(r.edges, HasSource(r));
    } else {
      forall i | 0 <= i < |refs|
        ensures HasSource(r)(r.edges[i]) && EdgeByName(r)(r.edges[i]) == EdgeOf(r.symbols[0].name)(refs[i])
      {
        assert refs[i] in refs;
      }
      FilterAll(r.edges, HasSource(r));
    }
  }

  /** The parse of a file contributes what its tree says. */
  lemma ParseShowsTree(file: string, lang: string, root: WalkSpec.Node)
    requires LanguageOf(file) == Some(lang)
    ensures Contribution(file, WalkSpec.ParseFile(file, lang, root)) == TreeView(file, lang, root)
  {
    hide WalkSpec.ParseFile, ReadChildren, Firsts, Collect, EdgeFor, EdgeOf, OwnersKnown, LanguageOf, LanguageName,
      SymbolFor, HasSource, EdgeByName, Filter;
    ParseSaysWhatTheTreeSays(file, lang, root);
    FileOwnersKnown(file, lang, root);
    RecordedAsParsed(file);
    var r := WalkSpec.ParseFile(file, lang, root);
    assert forall s :: s in r.symbols ==> s.file == file;
    SymbolsAgree(file, r.symbols);
    EdgesAgree(r, ReadChildren(root, |root.children|, lang, None, []).refs);
  }

  lemma ParseShowsSource(file: string, source: Source)
    ensures SourceView(file, source)
         == match Parse(file, source) case None => NOTHING case Some(r) => Contribution(file, r)
  {
    hide LanguageOf, TreeView, Contribution, WalkSpec.ParseFile;
    if source.Parsable? && LanguageOf(file).Some? {
      ParseShowsTree(file, LanguageOf(file).value, source.root);
    }
  }

  /**
   * After an update the file shows exactly what its new tree says in its language, or nothing when it
   * is gone, unreadable, wrong or of no supported language. No other file shows anything else.
   */
  lemma UpdateShowsTree(t: Tables, c: Change, u: Tables, g: string)
    requires Integrity(t) && Updated(t, c, u)
    ensures View(u, g) == if g != c.file then View(t, g) else if c.event == Removed then NOTHING
                          else SourceView(c.file, c.source)
  {
    hide View, Integrity, Updated, Contribution, Parse, SourceView;
    UpdateViews(t, c, u, g);
    ParseShowsSource(c.file, c.source);
  }

  lemma ShowsDisk(disk: Disk, g: string)
    ensures Shows(IndexOf(disk), g) == DiskView(disk, g)
  {
    hide Parse, Contribution, SourceView;
    if g in disk {
      ParseShowsSource(g, disk[g]);
    }
  }

  /** After a build of the empty store every file shows what its tree says. */
  lemma BuildShowsTrees(files: seq<string>, disk: Disk, u: Tables, g: string)
    requires Lists(files, disk) && Built(EMPTY, files, disk, u)
    ensures View(u, g) == DiskView(disk, g)
  {
    hide View, Integrity, Shows, DiskView, IndexOf, Built;
    BuildRepresents(files, disk, u);
    ShowsDisk(disk, g);
  }

  /** And so it is after a build and any changes, for the files as they are then. */
  lemma RunShowsTrees(files: seq<string>, disk: Disk, ts: seq<Tables>, changes: seq<Change>, g: string)
    requires Run(ts, changes) && Lists(files, disk) && Built(EMPTY, files, disk, ts[0])
    ensures View(ts[|changes|], g) == DiskView(DiskAfter(disk, changes), g)
  {
    hide View, Integrity, Shows, DiskView, IndexOf, Built, DiskAfter, Replay;
    BuildRepresents(files, disk, ts[0]);
    RunRefines(ts, changes, IndexOf(disk));
    ReplayIsDisk(disk, changes);
    ShowsDisk(DiskAfter(disk, changes), g);
  }
}
