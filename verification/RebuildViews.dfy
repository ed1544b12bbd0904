/**
 * What the tables show after a full build of a filled store (crates/visp-codegraph/src/index.rs), in
 * the cases in which it keeps the edges in order: for every file the old symbols it no longer
 * declares, with their edges, its old imports and exports, and then its new parse.
 */
module RebuildViews {
  import opened Collections
  import opened Graph
  import opened Languages
  import opened Tables
  import opened IndexSpec
  import opened IndexRuns
  import opened IndexEdges
  import opened Rebuilds

  function Parsed(files: seq<string>, disk: Disk, g: string): Option<ParseResult> {
    if g in files && g in disk then Parse(g, disk[g]) else None
  }

  /** A file's view without the symbols `dead` and their edges. */
  function Remaining(t: Tables, dead: set<nat>, g: string): FileView {
    FileView(
      set id | id in t.symbols && id !in dead && t.symbols[id].file == g :: Anonymous(t.symbols[id]),
      Map(Filter(Filter(t.edges, SourceOutside(dead)), OwnedBy(t, g)), Abstract(t)),
      EntriesOf(t.imports, g),
      EntriesOf(t.exports, g),
      if g in t.files then Some(t.files[g]) else None)
  }

  /** A view with a parse on top of it. */
  function Topped(v: FileView, g: string, parsed: Option<ParseResult>): FileView {
    match parsed
    case None => v
    case Some(r) =>
      var c := Contribution(g, r);
      FileView(v.symbols + c.symbols, v.edges + c.edges, v.imports + c.imports, v.exports + c.exports, c.record)
  }

  // ---- What a build has added so far ----

  function NewSymbolsIn(u: Tables, first: nat, g: string): set<Symbol> {
    set id | id in u.symbols && id >= first && u.symbols[id].file == g :: Anonymous(u.symbols[id])
  }

  function NewEdgesOf(u: Tables, n: nat, g: string): seq<AbsEdge> {
    if n <= |u.edges| then Map(Filter(u.edges[n..], OwnedBy(u, g)), Abstract(u)) else []
  }

  /** The additions of a build, and the rows it only appends to. */
  function Gained(u: Tables, first: nat, n: nat, g: string): FileView {
    FileView(NewSymbolsIn(u, first, g), NewEdgesOf(u, n, g), EntriesOf(u.imports, g), EntriesOf(u.exports, g),
             if g in u.files then Some(u.files[g]) else None)
  }

  function Bare(t: Tables, g: string): FileView {
    FileView({}, [], EntriesOf(t.imports, g), EntriesOf(t.exports, g), if g in t.files then Some(t.files[g]) else None)
  }

  lemma RowsAppended<T(!new)>(rows: seq<Row<T>>, file: string, entries: seq<T>, g: string)
    ensures EntriesOf(rows + Rows(file, entries), g) == EntriesOf(rows, g) + if g == file then entries else []
  {
    hide Filter, Inside;
    var added := Rows(file, entries);
    FilterConcat(rows, added, Inside(g));
    OwnRows(file, entries, g);
    var kept := Filter(rows, Inside(g));
    assert Filter(rows + added, Inside(g)) == kept + if g == file then added else [];
  }

  lemma OwnRows<T(!new)>(file: string, entries: seq<T>, g: string)
    ensures Filter(Rows(file, entries), Inside(g)) == if g == file then Rows(file, entries) else []
  {
    var added := Rows(file, entries);
    assert forall r :: r in added ==> r.file == file;
    if g == file {
      FilterAll(added, Inside(g));
    } else {
      FilterNone(added, Inside(g));
    }
    hide Filter, Rows;
  }

  /** The other tables after `InsertParse` over what is there. */
  lemma InsertParseAppends(t: Tables, file: string, r: ParseResult)
    requires Sound(t) && WellFormed(r, file)
    ensures var u := InsertParse(t, file, r);
            && u.imports == t.imports + Rows(file, r.imports) && u.exports == t.exports + Rows(file, r.exports)
            && u.files == t.files[file := FileRow(LanguageName(file), |r.symbols|)]
  {
    assert NewToFile(r.symbols, file);
    var dead := Replaced(t, file, r.symbols);
    InsertSymbolsReplaces(t, file, r.symbols);
    FilterAll(t.exports, SymbolOutside(dead));
    hide InsertSymbols, NewSymbols, RemapEdges, EdgeRows, IdMap, Replaced, Rows, SymbolsOk;
  }

  lemma NewSymbolsStep(t: Tables, u: Tables, v: Tables, more: set<nat>, file: string, ss: seq<Symbol>, g: string)
    requires t.nextSymbol <= u.nextSymbol && (forall id :: id in u.symbols ==> id < u.nextSymbol)
    requires (forall id :: id in more ==> id < t.nextSymbol) && forall s :: s in ss ==> s.file == file
    requires v.symbols == (u.symbols - more) + NewSymbols(u.nextSymbol, ss)
    ensures NewSymbolsIn(v, t.nextSymbol, g)
         == NewSymbolsIn(u, t.nextSymbol, g) + if g == file then set s | s in ss :: Anonymous(s) else {}
  {
    hide NewSymbols;
    forall s | s in ss && g == file
      ensures Anonymous(s) in NewSymbolsIn(v, t.nextSymbol, g)
    {
      var i :| 0 <= i < |ss| && ss[i] == s;
      assert v.symbols[u.nextSymbol + i] == s.(id := u.nextSymbol + i);
    }
    forall id | id in v.symbols && id >= t.nextSymbol && v.symbols[id].file == g
      ensures Anonymous(v.symbols[id]) in NewSymbolsIn(u, t.nextSymbol, g)
              || (g == file && Anonymous(v.symbols[id]) in set s | s in ss :: Anonymous(s))
    {
      if id >= u.nextSymbol {
        assert ss[id - u.nextSymbol] in ss;
      }
    }
    forall id | id in u.symbols && id >= t.nextSymbol
      ensures id in v.symbols && v.symbols[id] == u.symbols[id]
    {
    }
  }

  /** Edges added before keep showing what they showed. */
  lemma ExtraStays(t: Tables, u: Tables, v: Tables, extra: seq<EdgeRow>, g: string)
    requires forall i :: 0 <= i < |extra| ==> NewEdge(t, u, extra[i])
    requires forall id :: id in u.symbols && id >= t.nextSymbol ==> id in v.symbols && v.symbols[id] == u.symbols[id]
    ensures Map(Filter(extra, OwnedBy(v, g)), Abstract(v)) == Map(Filter(extra, OwnedBy(u, g)), Abstract(u))
  {
    forall i | 0 <= i < |extra|
      ensures OwnedBy(v, g)(extra[i]) == OwnedBy(u, g)(extra[i])
      ensures Abstract(v)(extra[i]) == Abstract(u)(extra[i])
    {
      assert NewEdge(t, u, extra[i]);
    }
    SelectCong(extra, OwnedBy(v, g), Abstract(v), extra, OwnedBy(u, g), Abstract(u));
  }

  lemma RowsShow(cleared: Tables, v: Tables, file: string, r: ParseResult, g: string)
    requires WellFormed(r, file) && v.symbols == cleared.symbols + NewSymbols(cleared.nextSymbol, r.symbols)
    ensures var rows := EdgeRows(cleared.nextEdge, RemapEdges(r.edges, IdMap(cleared.nextSymbol, |r.symbols|)));
            Map(Filter(rows, OwnedBy(v, g)), Abstract(v)) == if g == file then Contribution(file, r).edges else []
  {
    hide NewSymbols, RemapEdges, EdgeRows, IdMap, OwnedBy, Abstract, WellFormed, HasSource, EdgeByName;
    NewEdgesOwner(cleared, v, file, r, g);
    NewNames(cleared, v, r.symbols);
    NewEdgesView(cleared.nextSymbol, cleared.nextEdge, v, file, r);
  }

  lemma NewEdgesStep(
    t: Tables, u: Tables, v: Tables, cleared: Tables, n: nat, m: nat, file: string, r: ParseResult, g: string)
    requires WellFormed(r, file) && n <= |u.edges| && forall i :: n <= i < |u.edges| ==> NewEdge(t, u, u.edges[i])
    requires forall id :: id in u.symbols && id >= t.nextSymbol ==> id in v.symbols && v.symbols[id] == u.symbols[id]
    requires v.symbols == cleared.symbols + NewSymbols(cleared.nextSymbol, r.symbols)
    requires m + (|u.edges| - n) <= |v.edges|
    requires v.edges[m..] == u.edges[n..]
      + EdgeRows(cleared.nextEdge, RemapEdges(r.edges, IdMap(cleared.nextSymbol, |r.symbols|)))
    ensures NewEdgesOf(v, m, g) == NewEdgesOf(u, n, g) + if g == file then Contribution(file, r).edges else []
  {
    var extra := u.edges[n..];
    var rows := EdgeRows(cleared.nextEdge, RemapEdges(r.edges, IdMap(cleared.nextSymbol, |r.symbols|)));
    forall i | 0 <= i < |extra|
      ensures NewEdge(t, u, extra[i])
    {
      assert extra[i] == u.edges[n + i];
    }
    ExtraStays(t, u, v, extra, g);
    RowsShow(cleared, v, file, r, g);
    FilterConcat(extra, rows, OwnedBy(v, g));
    MapConcat(Filter(extra, OwnedBy(v, g)), Filter(rows, OwnedBy(v, g)), Abstract(v));
    hide NewSymbols, RemapEdges, EdgeRows, IdMap, OwnedBy, Abstract, WellFormed, Contribution, NewEdge;
  }

  /** One more file adds its parse, and nothing to any other file. */
  lemma GainStep(t: Tables, u: Tables, files: seq<string>, dead: set<nat>, file: string, r: ParseResult, g: string)
    requires Sound(t) && Sound(u) && WellFormed(r, file)
    requires Carried(t, u, dead, files) && Replaced(u, file, r.symbols) == Replaced(t, file, r.symbols)
    ensures var v, more := InsertParse(u, file, r), Replaced(t, file, r.symbols);
            Gained(v, t.nextSymbol, |DeleteSymbols(t, dead + more).edges|, g)
            == Topped(Gained(u, t.nextSymbol, |DeleteSymbols(t, dead).edges|, g), g,
              if g == file then Some(r) else None)
  {
    hide *;
    var v, more := InsertParse(u, file, r), Replaced(t, file, r.symbols);
    var n, m := |DeleteSymbols(t, dead).edges|, |DeleteSymbols(t, dead + more).edges|;
    var cleared := DeleteSymbols(u, more);
    InsertParseReplaces(u, file, r);
    InsertParseAppends(u, file, r);
    SoundIds(t);
    SoundIds(u);
    ReplacedOld(t, file, r.symbols);
    EdgesAfterOneMore(t, u, files, dead, more);
    DeletedSymbols(u, more);
    DeletedRest(u, more);
    OwnFile(r, file);
    AddedRows(u.nextSymbol, r.symbols, file);
    CarriedParts(t, u, dead, files);
    CarriedMeans(t, u, dead);
    NewSymbolsStep(t, u, v, more, file, r.symbols, g);
    KeepsNew(t, u, v, more, NewSymbols(u.nextSymbol, r.symbols));
    TailOf(v.edges, DeleteSymbols(t, dead + more).edges, u.edges[n..],
           EdgeRows(u.nextEdge, RemapEdges(r.edges, IdMap(u.nextSymbol, |r.symbols|))));
    NewEdgesStep(t, u, v, cleared, n, m, file, r, g);
    RowsAppended(u.imports, file, r.imports, g);
    RowsAppended(u.exports, file, r.exports, g);
    GainedIs(u, v, t.nextSymbol, n, m, file, r, g);
  }

  lemma DeletedRest(t: Tables, dead: set<nat>)
    ensures var d := DeleteSymbols(t, dead); d.nextSymbol == t.nextSymbol && d.nextEdge == t.nextEdge
  {
  }

  lemma CarriedMeans(t: Tables, u: Tables, dead: set<nat>)
    requires CarriedEdges(t, u, dead)
    ensures var n := |DeleteSymbols(t, dead).edges|;
            n <= |u.edges| && forall i :: n <= i < |u.edges| ==> NewEdge(t, u, u.edges[i])
  {
  }

  lemma KeepsNew(t: Tables, u: Tables, v: Tables, more: set<nat>, added: map<nat, Symbol>)
    requires v.symbols == (u.symbols - more) + added
    requires (forall id :: id in more ==> id < t.nextSymbol) && (forall id :: id in u.symbols ==> id < u.nextSymbol)
    requires forall id :: id in added ==> u.nextSymbol <= id
    ensures forall id :: id in u.symbols && id >= t.nextSymbol ==> id in v.symbols && v.symbols[id] == u.symbols[id]
  {
  }

  lemma TailOf(all: seq<EdgeRow>, now: seq<EdgeRow>, extra: seq<EdgeRow>, rows: seq<EdgeRow>)
    requires all == now + extra + rows
    ensures all[|now|..] == extra + rows && |now| + |extra| <= |all|
  {
  }

  lemma GainedIs(u: Tables, v: Tables, first: nat, n: nat, m: nat, file: string, r: ParseResult, g: string)
    requires NewSymbolsIn(v, first, g)
          == NewSymbolsIn(u, first, g) + if g == file then set s | s in r.symbols :: Anonymous(s) else {}
    requires NewEdgesOf(v, m, g) == NewEdgesOf(u, n, g) + if g == file then Contribution(file, r).edges else []
    requires EntriesOf(v.imports, g) == EntriesOf(u.imports, g) + if g == file then r.imports else []
    requires EntriesOf(v.exports, g) == EntriesOf(u.exports, g) + if g == file then r.exports else []
    requires v.files == u.files[file := FileRow(LanguageName(file), |r.symbols|)]
    ensures Gained(v, first, m, g) == Topped(Gained(u, first, n, g), g, if g == file then Some(r) else None)
  {
    hide NewSymbolsIn, NewEdgesOf, EntriesOf;
  }

  lemma {:induction false} BuildGains(t: Tables, files: seq<string>, disk: Disk, g: string)
    requires Sound(t) && (forall f :: f in files ==> f in disk)
    requires forall i, j :: 0 <= i < j < |files| ==> files[i] != files[j]
    ensures Gained(InsertAll(t, files, disk), t.nextSymbol, |DeleteSymbols(t, Renewed(t, files, disk)).edges|, g)
         == Topped(Bare(t, g), g, Parsed(files, disk, g))
  {
    hide *;
    if files == [] {
      NothingGained(t, disk, g);
    } else {
      var init, file := files[..|files| - 1], files[|files| - 1];
      var u, parsed := InsertAll(t, init, disk), Parse(file, disk[file]);
      BuildGains(t, init, disk, g);
      BuildCarries(t, init, disk);
      LastFile(t, files, disk, g);
      ToppedOnce(Bare(t, g), g, Parsed(init, disk, g), if g == file then parsed else None);
      match parsed
      case None =>
        NotRenewed(t, files, disk);
      case Some(r) =>
        ParsesWell(file, disk[file]);
        RenewedStep(t, u, files, disk, r);
        GainStep(t, u, init, Renewed(t, init, disk), file, r, g);
    }
  }

  lemma LastFile(t: Tables, files: seq<string>, disk: Disk, g: string)
    requires files != [] && (forall f :: f in files ==> f in disk) && files[|files| - 1] !in files[..|files| - 1]
    ensures var init, file := files[..|files| - 1], files[|files| - 1];
            && InsertAll(t, files, disk) ==
               (match Parse(file, disk[file]) case None => InsertAll(t, init, disk)
                case Some(r) => InsertParse(InsertAll(t, init, disk), file, r))
            && (g == file ==> Parsed(init, disk, g) == None && Parsed(files, disk, g) == Parse(file, disk[file]))
            && (g != file ==> Parsed(files, disk, g) == Parsed(init, disk, g))
  {
    hide Parse, InsertParse;
    assert forall f :: f in files <==> f in files[..|files| - 1] || f == files[|files| - 1];
  }

  lemma ParsesWell(file: string, source: Source)
    ensures Parse(file, source).Some? ==> WellFormed(Parse(file, source).value, file)
  {
  }

  lemma ToppedOnce(v: FileView, g: string, first: Option<ParseResult>, second: Option<ParseResult>)
    ensures second == None ==> Topped(Topped(v, g, first), g, second) == Topped(v, g, first)
    ensures first == None ==> Topped(Topped(v, g, first), g, second) == Topped(v, g, second)
  {
    hide Contribution;
  }

  lemma NothingGained(t: Tables, disk: Disk, g: string)
    requires Sound(t)
    ensures Gained(InsertAll(t, [], disk), t.nextSymbol, |DeleteSymbols(t, Renewed(t, [], disk)).edges|, g)
         == Topped(Bare(t, g), g, Parsed([], disk, g))
  {
    assert Renewed(t, [], disk) == {};
    DeleteNothing(t);
    assert NewSymbolsIn(t, t.nextSymbol, g) == {};
    assert t.edges[|t.edges|..] == [];
  }

  // ---- The view after a build ----

  /** Without stranded edges the rows kept from before show what they showed. */
  lemma KeptShows(t: Tables, u: Tables, dead: set<nat>, files: seq<string>, g: string)
    requires Integrity(t) && Carried(t, u, dead, files) && NoneStranded(t, dead)
    ensures var kept := DeleteSymbols(t, dead).edges;
            |kept| <= |u.edges| && Map(Filter(u.edges[..|kept|], OwnedBy(u, g)), Abstract(u))
              == Remaining(t, dead, g).edges
  {
    var rows, kept := Filter(t.edges, SourceOutside(dead)), DeleteSymbols(t, dead).edges;
    forall e | e in rows
      ensures Detach(dead)(e) == e
      ensures EdgeOk(t.symbols, e) && e.source !in dead && (e.target.Some? ==> e.target.value !in dead)
    {
      assert e in t.edges;
    }
    MapIdentity(rows, Detach(dead));
    assert u.edges[..|kept|] == kept == rows;
    assert CarriedSymbols(t, u, dead, files);
    hide Carried, Integrity, NoneStranded, DeleteSymbols, CarriedEdges;
    forall i | 0 <= i < |rows|
      ensures OwnedBy(t, g)(rows[i]) == OwnedBy(u, g)(rows[i])
      ensures Abstract(t)(rows[i]) == Abstract(u)(rows[i])
    {
      assert rows[i] in rows;
    }
    SelectCong(rows, OwnedBy(t, g), Abstract(t), rows, OwnedBy(u, g), Abstract(u));
  }

  lemma SymbolsSplit(t: Tables, u: Tables, dead: set<nat>, files: seq<string>, g: string)
    requires SymbolsOk(t) && CarriedSymbols(t, u, dead, files)
    ensures SymbolsIn(u, g) == Remaining(t, dead, g).symbols + NewSymbolsIn(u, t.nextSymbol, g)
  {
  }

  lemma EdgesSplit(u: Tables, n: nat, g: string)
    requires n <= |u.edges|
    ensures EdgesOf(u, g) == Map(Filter(u.edges[..n], OwnedBy(u, g)), Abstract(u)) + NewEdgesOf(u, n, g)
  {
    assert u.edges == u.edges[..n] + u.edges[n..];
    FilterConcat(u.edges[..n], u.edges[n..], OwnedBy(u, g));
    MapConcat(Filter(u.edges[..n], OwnedBy(u, g)), Filter(u.edges[n..], OwnedBy(u, g)), Abstract(u));
  }

  lemma ViewSplit(t: Tables, u: Tables, dead: set<nat>, files: seq<string>, g: string, parsed: Option<ParseResult>)
    requires Integrity(t) && Carried(t, u, dead, files) && NoneStranded(t, dead)
    requires Gained(u, t.nextSymbol, |DeleteSymbols(t, dead).edges|, g) == Topped(Bare(t, g), g, parsed)
    ensures View(u, g) == Topped(Remaining(t, dead, g), g, parsed)
  {
    hide *;
    KeptShows(t, u, dead, files, g);
    CarriedParts(t, u, dead, files);
    HasSymbolsOk(t);
    SymbolsSplit(t, u, dead, files, g);
    EdgesSplit(u, |DeleteSymbols(t, dead).edges|, g);
    SplitIsTopped(t, u, dead, |DeleteSymbols(t, dead).edges|, g, parsed);
  }

  lemma HasSymbolsOk(t: Tables)
    requires Integrity(t)
    ensures SymbolsOk(t)
  {
  }

  lemma SplitIsTopped(t: Tables, u: Tables, dead: set<nat>, n: nat, g: string, parsed: Option<ParseResult>)
    requires SymbolsIn(u, g) == Remaining(t, dead, g).symbols + NewSymbolsIn(u, t.nextSymbol, g)
    requires EdgesOf(u, g) == Remaining(t, dead, g).edges + NewEdgesOf(u, n, g)
    requires Gained(u, t.nextSymbol, n, g) == Topped(Bare(t, g), g, parsed)
    ensures View(u, g) == Topped(Remaining(t, dead, g), g, parsed)
  {
    hide SymbolsIn, NewSymbolsIn, EdgesOf, NewEdgesOf, EntriesOf, OwnedBy, Abstract, Contribution;
    if parsed.Some? {
      var c := Contribution(g, parsed.value);
      assert {} + c.symbols == c.symbols && [] + c.edges == c.edges;
    } else {
      var v := Remaining(t, dead, g);
      assert v.symbols + {} == v.symbols && v.edges + [] == v.edges;
    }
  }

  /**
   * When a build of a filled store keeps the edges in order, every file shows the old symbols it no
   * longer declares with their edges, its old imports and exports, and on top of that its new parse.
   */
  lemma RebuildShows(t: Tables, files: seq<string>, disk: Disk, u: Tables, g: string)
    requires Integrity(t) && Lists(files, disk) && Built(t, files, disk, u) && Integrity(u)
    ensures View(u, g) == Topped(Remaining(t, Renewed(t, files, disk), g), g, Parsed(files, disk, g))
  {
    var built, dead := InsertAll(t, files, disk), Renewed(t, files, disk);
    BuildCarries(t, files, disk);
    BuildGains(t, files, disk, g);
    hide Sound, Carried, Renewed, InsertAll, View, Remaining, Topped, Gained, Bare, Parsed, NoneStranded;
    CarriedIff(t, built, dead, files);
    ResolveIntegrityIff(built, u);
    ViewSplit(t, built, dead, files, g, Parsed(files, disk, g));
    ResolveView(built, u, g);
  }

  /**
   * After such a build a parsed file shows exactly its parse if and only if it had declared nothing
   * that is gone now and had neither imports nor exports: those are entered a second time.
   */
  lemma ShowsParseIff(t: Tables, files: seq<string>, disk: Disk, u: Tables, g: string, r: ParseResult)
    requires Integrity(t) && Lists(files, disk) && Built(t, files, disk, u) && Integrity(u)
      && Parsed(files, disk, g) == Some(r)
    ensures View(u, g) == Contribution(g, r) <==>
            && (forall id :: id in t.symbols && t.symbols[id].file == g ==> NamedIn(r.symbols, t.symbols[id].name))
            && EntriesOf(t.imports, g) == [] && EntriesOf(t.exports, g) == []
  {
    hide *;
    var dead := Renewed(t, files, disk);
    RebuildShows(t, files, disk, u, g);
    DeadIn(t, files, disk, g, r);
    ToppedIsParseIff(Remaining(t, dead, g), g, r);
    RemainingIs(t, dead, g);
    if forall id :: id in t.symbols && t.symbols[id].file == g ==> NamedIn(r.symbols, t.symbols[id].name) {
      NothingRemains(t, dead, g);
    } else {
      var id :| id in t.symbols && t.symbols[id].file == g && !NamedIn(r.symbols, t.symbols[id].name);
      NotDeclared(g, r, t.symbols[id]);
    }
  }

  lemma ToppedIsParseIff(v: FileView, g: string, r: ParseResult)
    ensures Topped(v, g, Some(r)) == Contribution(g, r) <==>
            v.symbols <= Contribution(g, r).symbols && v.edges == [] && v.imports == [] && v.exports == []
  {
    var c := Contribution(g, r);
    EmptyFront(v.edges, c.edges);
    EmptyFront(v.imports, c.imports);
    EmptyFront(v.exports, c.exports);
    hide Contribution;
    assert v.symbols + c.symbols == c.symbols <==> v.symbols <= c.symbols;
  }

  lemma RemainingIs(t: Tables, dead: set<nat>, g: string)
    ensures var v := Remaining(t, dead, g);
            && v.imports == EntriesOf(t.imports, g) && v.exports == EntriesOf(t.exports, g)
            && forall id :: id in t.symbols && id !in dead && t.symbols[id].file == g
                ==> Anonymous(t.symbols[id]) in v.symbols
  {
    hide EntriesOf, Anonymous;
  }

  lemma DeadIn(t: Tables, files: seq<string>, disk: Disk, g: string, r: ParseResult)
    requires Parsed(files, disk, g) == Some(r)
    ensures forall id :: id in t.symbols && t.symbols[id].file == g ==>
              (id in Renewed(t, files, disk) <==> NamedIn(r.symbols, t.symbols[id].name))
  {
    hide NamedIn;
  }

  lemma NothingRemains(t: Tables, dead: set<nat>, g: string)
    requires forall id :: id in t.symbols && t.symbols[id].file == g ==> id in dead
    ensures Remaining(t, dead, g).symbols == {} && Remaining(t, dead, g).edges == []
  {
    FilterNone(Filter(t.edges, SourceOutside(dead)), OwnedBy(t, g));
  }

  lemma NotDeclared(g: string, r: ParseResult, s: Symbol)
    requires !NamedIn(r.symbols, s.name)
    ensures Anonymous(s) !in Contribution(g, r).symbols
  {
  }

  lemma EmptyFront<T>(a: seq<T>, b: seq<T>)
    ensures a + b == b <==> a == []
  {
    if a + b == b {
      assert |a| + |b| == |b|;
    }
  }
}
