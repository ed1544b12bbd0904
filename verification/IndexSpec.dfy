/**
 * What indexing one file means for the tables (crates/visp-codegraph/src/index.rs), and what every
 * run of the indexer keeps: the tables always show exactly the latest successful parse of each file.
 */
module IndexSpec {
  import opened Collections
  import opened Graph
  import opened Tables
  import opened Languages

  // ---- Deleting a file ----

  /** Unbinding, then deleting by source twice, then the foreign-key action, in closed form. */
  lemma DeleteSteps(edges: seq<EdgeRow>, symbols: map<nat, Symbol>, ids: set<nat>)
    requires ids <= symbols.Keys
    ensures Map(Filter(Filter(Map(edges, Unbind(symbols, ids)), SourceOutside(ids)), SourceOutside(ids)), Detach(ids))
            == Map(Filter(edges, SourceOutside(ids)), Unbind(symbols, ids))
  {
    var unbind, outside := Unbind(symbols, ids), SourceOutside(ids);
    FilterMap(edges, unbind, outside, outside);
    var bound := Filter(edges, outside);
    var unbound := Map(bound, unbind);
    FilterAll(unbound, outside);
    MapIdentity(unbound, Detach(ids));
  }

  lemma DeletedShape(t: Tables, file: string)
    requires Sound(t)
    ensures var ids, r := SymbolsOf(t, file), DeleteFileData(t, file);
            && r.symbols == t.symbols - ids
            && r.nextSymbol == t.nextSymbol && r.nextEdge == t.nextEdge
            && r.edges == Map(Filter(t.edges, SourceOutside(ids)), Unbind(t.symbols, ids))
            && r.imports == Filter(t.imports, Outside(file))
            && r.exports == Filter(t.exports, Outside(file))
            && r.files == t.files - {file}
  {
    DeleteSteps(t.edges, t.symbols, SymbolsOf(t, file));
    FilterAll(t.exports, SymbolOutside(SymbolsOf(t, file)));
  }

  lemma {:induction false} FilterKeepsOrder(rows: seq<EdgeRow>, p: EdgeRow -> bool, next: nat)
    requires Increasing(rows, next)
    ensures Increasing(Filter(rows, p), next)
  {
    if rows != [] {
      var init, last := rows[..|rows| - 1], rows[|rows| - 1];
      assert Increasing(init, last.id);
      FilterKeepsOrder(init, p, last.id);
    }
  }

  /** Dropping rows and rewriting the rest in place keeps the order of ids. */
  lemma SelectKeepsOrder(rows: seq<EdgeRow>, p: EdgeRow -> bool, f: EdgeRow -> EdgeRow, next: nat)
    requires Increasing(rows, next) && forall e :: f(e).id == e.id
    ensures Increasing(Map(Filter(rows, p), f), next)
  {
    FilterKeepsOrder(rows, p, next);
  }

  lemma DeleteKeepsSound(t: Tables, file: string)
    requires Sound(t)
    ensures Sound(DeleteFileData(t, file))
  {
    hide DeleteFileData;
    var ids := SymbolsOf(t, file);
    DeletedShape(t, file);
    SelectKeepsOrder(t.edges, SourceOutside(ids), Unbind(t.symbols, ids), t.nextEdge);
    assert forall x :: x in DeleteFileData(t, file).exports ==> x in t.exports;
  }

  lemma DeleteKeepsIntegrity(t: Tables, file: string)
    requires Integrity(t)
    ensures Integrity(DeleteFileData(t, file))
  {
    hide DeleteFileData;
    var ids := SymbolsOf(t, file);
    var r := DeleteFileData(t, file);
    DeletedShape(t, file);
    DeleteKeepsSound(t, file);
    hide Sound;
    var kept := Filter(t.edges, SourceOutside(ids));
    forall i | 0 <= i < |r.edges|
      ensures EdgeOk(r.symbols, r.edges[i])
    {
      assert kept[i] in kept;
      assert EdgeOk(t.symbols, kept[i]);
      assert r.edges[i] == Unbind(t.symbols, ids)(kept[i]);
    }
  }

  /** The deleted file is gone from the index, every other file's view is as before. */
  lemma DeleteView(t: Tables, file: string, g: string)
    requires Integrity(t)
    ensures View(DeleteFileData(t, file), g) == if g == file then NOTHING else View(t, g)
  {
    hide DeleteFileData, EdgesOf, EntriesOf, Sound;
    var r := DeleteFileData(t, file);
    DeleteEdgesView(t, file, g);
    DeleteRows(t.imports, file, g);
    DeleteRows(t.exports, file, g);
    DeletedShape(t, file);
    if g == file {
      assert SymbolsIn(r, g) == {};
    } else {
      forall id | id in t.symbols && t.symbols[id].file == g
        ensures id in r.symbols && r.symbols[id] == t.symbols[id]
      {
      }
      assert SymbolsIn(r, g) == SymbolsIn(t, g);
    }
  }

  lemma DeleteEdgesView(t: Tables, file: string, g: string)
    requires Integrity(t)
    ensures EdgesOf(DeleteFileData(t, file), g) == if g == file then [] else EdgesOf(t, g)
  {
    hide DeleteFileData;
    var r := DeleteFileData(t, file);
    var ids := SymbolsOf(t, file);
    var kept := Filter(t.edges, SourceOutside(ids));
    DeletedShape(t, file);
    if g == file {
      FilterNone(r.edges, OwnedBy(r, g));
    } else {
      forall i | 0 <= i < |kept|
        ensures OwnedBy(t, g)(kept[i]) == OwnedBy(r, g)(r.edges[i])
        ensures Abstract(t)(kept[i]) == Abstract(r)(r.edges[i])
      {
        assert kept[i] in kept;
        assert EdgeOk(t.symbols, kept[i]);
        assert r.edges[i] == Unbind(t.symbols, ids)(kept[i]);
      }
      SelectCong(kept, OwnedBy(t, g), Abstract(t), r.edges, OwnedBy(r, g), Abstract(r));
      FilterFilter(t.edges, SourceOutside(ids), OwnedBy(t, g));
    }
  }

  lemma DeleteRows<T(!new)>(rows: seq<Row<T>>, file: string, g: string)
    ensures EntriesOf(Filter(rows, Outside(file)), g) == if g == file then [] else EntriesOf(rows, g)
  {
    if g == file {
      FilterNone(Filter(rows, Outside(file)), Inside(g));
    } else {
      FilterFilter(rows, Outside(file), Inside(g));
    }
  }

  // ---- Inserting the parse of a file ----

  /** Temporary symbol ids to row ids. */
  function IdMap(first: nat, n: nat): (r: map<nat, nat>)
    ensures forall i :: i in r <==> 0 <= i < n
    ensures forall i :: i in r ==> r[i] == first + i
  {
    if n == 0 then map[] else IdMap(first, n - 1)[n - 1 := first + n - 1]
  }

  function Mapped(ids: map<nat, nat>): Edge -> bool {
    (e: Edge) => e.sourceId in ids
  }

  function Renumber(ids: map<nat, nat>): Edge -> Edge {
    (e: Edge) => if e.sourceId in ids then e.(sourceId := ids[e.sourceId]) else e
  }

  /** Edges with their sources renumbered; an edge whose source has no row is skipped. */
  function RemapEdges(edges: seq<Edge>, ids: map<nat, nat>): seq<Edge> {
    Map(Filter(edges, Mapped(ids)), Renumber(ids))
  }

  function InsertParse(t: Tables, file: string, r: ParseResult): Tables {
    var t1 := InsertSymbols(t, r.symbols);
    var t2 := InsertEdges(t1, RemapEdges(r.edges, IdMap(t.nextSymbol, |r.symbols|)));
    t2.(imports := t2.imports + Rows(file, r.imports),
        exports := t2.exports + Rows(file, r.exports),
        files := t2.files[file := FileRow(LanguageName(file), |r.symbols|)])
  }

  /** What a parse contributes to the index: its edges by name, sources taken from its own symbols. */
  function Contribution(file: string, r: ParseResult): FileView {
    FileView(
      set s | s in r.symbols :: Anonymous(s),
      Map(Filter(r.edges, HasSource(r)), EdgeByName(r)),
      r.imports,
      r.exports,
      Some(FileRow(LanguageName(file), |r.symbols|)))
  }

  function HasSource(r: ParseResult): Edge -> bool {
    (e: Edge) => e.sourceId < |r.symbols|
  }

  function EdgeByName(r: ParseResult): Edge -> AbsEdge {
    (e: Edge) => AbsEdge(if e.sourceId < |r.symbols| then r.symbols[e.sourceId].name else "", e.targetName, e.kind)
  }

  /**
   * An edge from outside every symbol, whose source id is 0, is not skipped: it is kept and counts as
   * coming from the file's first symbol. Only a file without symbols loses its edges.
   */
  lemma TopLevelEdgesGoToFirstSymbol(file: string, r: ParseResult)
    requires WellFormed(r, file)
    ensures |Contribution(file, r).edges| == if r.symbols == [] then 0 else |r.edges|
    ensures r.symbols != [] ==>
              forall i :: 0 <= i < |r.edges| && r.edges[i].sourceId == 0 ==>
                Contribution(file, r).edges[i] == AbsEdge(r.symbols[0].name, r.edges[i].targetName, r.edges[i].kind)
  {
    if r.symbols == [] {
      FilterNone(r.edges, HasSource(r));
    } else {
      FilterAll(r.edges, HasSource(r));
    }
  }

  ghost predicate Vacant(t: Tables, file: string) {
    forall id :: id in t.symbols ==> t.symbols[id].file != file
  }

  lemma DeleteNothing(t: Tables)
    ensures DeleteSymbols(t, {}) == t
  {
    FilterAll(t.edges, SourceOutside({}));
    MapIdentity(t.edges, Detach({}));
    FilterAll(t.exports, SymbolOutside({}));
    assert t.symbols - {} == t.symbols;
  }

  lemma InsertSymbolAdds(t: Tables, s: Symbol)
    requires SameKey(t, s) == {}
    ensures InsertSymbol(t, s)
      == t.(symbols := t.symbols[t.nextSymbol := s.(id := t.nextSymbol)], nextSymbol := t.nextSymbol + 1)
  {
    DeleteNothing(t);
  }

  /** The rows of `ss` when the first gets id `first`. */
  function NewSymbols(first: nat, ss: seq<Symbol>): (r: map<nat, Symbol>)
    ensures forall id :: id in r <==> first <= id < first + |ss|
    ensures forall id :: id in r ==> r[id] == ss[id - first].(id := id)
  {
    if ss == [] then map[]
    else
      var n := |ss| - 1;
      NewSymbols(first, ss[..n])[first + n := ss[n].(id := first + n)]
  }

  lemma NewSymbolsStep(symbols: map<nat, Symbol>, first: nat, ss: seq<Symbol>)
    requires ss != []
    ensures var n := |ss| - 1;
            symbols + NewSymbols(first, ss)
              == (symbols + NewSymbols(first, ss[..n]))[first + n := ss[n].(id := first + n)]
  {
  }

  lemma NoSameKey(t: Tables, u: Tables, file: string, init: seq<Symbol>, s: Symbol)
    requires Vacant(t, file) && s.file == file
    requires u.symbols == t.symbols + NewSymbols(t.nextSymbol, init)
    requires forall x :: x in init ==> x.name != s.name
    ensures SameKey(u, s) == {}
  {
    forall id | id in u.symbols
      ensures !(u.symbols[id].file == file && u.symbols[id].name == s.name)
    {
      if id in NewSymbols(t.nextSymbol, init) {
        assert init[id - t.nextSymbol] in init;
      }
    }
  }

  function WithSymbols(t: Tables, ss: seq<Symbol>): Tables {
    t.(symbols := t.symbols + NewSymbols(t.nextSymbol, ss), nextSymbol := t.nextSymbol + |ss|)
  }

  ghost predicate NewToFile(ss: seq<Symbol>, file: string) {
    && (forall s :: s in ss ==> s.file == file)
    && (forall i, j :: 0 <= i < j < |ss| ==> ss[i].name != ss[j].name)
  }

  lemma AddLast(t: Tables, file: string, ss: seq<Symbol>)
    requires Vacant(t, file) && NewToFile(ss, file) && ss != []
    ensures InsertSymbol(WithSymbols(t, ss[..|ss| - 1]), ss[|ss| - 1]) == WithSymbols(t, ss)
  {
    hide InsertSymbol, SameKey, Vacant;
    var n := |ss| - 1;
    var before := WithSymbols(t, ss[..n]);
    NoSameKey(t, before, file, ss[..n], ss[n]);
    InsertSymbolAdds(before, ss[n]);
    NewSymbolsStep(t.symbols, t.nextSymbol, ss);
  }

  /** On a vacant file nothing is ever replaced: the rows are just added, in order. */
  lemma {:induction false} InsertSymbolsAdds(t: Tables, file: string, ss: seq<Symbol>)
    requires Vacant(t, file) && NewToFile(ss, file)
    ensures InsertSymbols(t, ss) == WithSymbols(t, ss)
  {
    hide InsertSymbol, Vacant;
    if ss == [] {
      assert t.symbols + map[] == t.symbols;
    } else {
      var init := ss[..|ss| - 1];
      assert NewToFile(init, file);
      hide NewToFile, WithSymbols;
      InsertSymbolsAdds(t, file, init);
      AddLast(t, file, ss);
    }
  }

  // ---- Inserting into a file that may already have rows ----

  lemma DeleteSymbolsKeepsSound(t: Tables, dead: set<nat>)
    requires Sound(t)
    ensures Sound(DeleteSymbols(t, dead))
  {
    SelectKeepsOrder(t.edges, SourceOutside(dead), Detach(dead), t.nextEdge);
    assert forall x :: x in DeleteSymbols(t, dead).exports ==> x in t.exports;
  }

  lemma InsertSymbolKeepsSound(t: Tables, s: Symbol)
    requires Sound(t)
    ensures Sound(InsertSymbol(t, s))
  {
    DeleteSymbolsKeepsSound(t, SameKey(t, s));
    var d := DeleteSymbols(t, SameKey(t, s));
    assert d.symbols == t.symbols - SameKey(t, s) && d.nextSymbol == t.nextSymbol;
    hide DeleteSymbols;
  }

  ghost predicate RowedAt(u: Tables, id: nat, name: string) {
    id in u.symbols && u.symbols[id].name == name
  }

  /** The symbols have rows under the ids from `first` on. */
  ghost predicate Rowed(u: Tables, first: nat, ss: seq<Symbol>) {
    forall i :: 0 <= i < |ss| ==> RowedAt(u, first + i, ss[i].name)
  }

  lemma RowedStep(b: Tables, first: nat, ss: seq<Symbol>, file: string)
    requires ss != [] && NewToFile(ss, file)
    requires Rowed(b, first, ss[..|ss| - 1]) && b.nextSymbol == first + |ss| - 1
    ensures Rowed(InsertSymbol(b, ss[|ss| - 1]), first, ss)
  {
    var n := |ss| - 1;
    var r := InsertSymbol(b, ss[n]);
    forall i | 0 <= i < |ss|
      ensures RowedAt(r, first + i, ss[i].name)
    {
      if i < n {
        assert RowedAt(b, first + i, ss[..n][i].name);
      }
    }
  }

  /** The new symbols all have their rows afterwards, whatever rows they replaced. */
  lemma {:induction false} InsertSymbolsKeepsSound(t: Tables, file: string, ss: seq<Symbol>)
    requires Sound(t) && NewToFile(ss, file)
    ensures Sound(InsertSymbols(t, ss)) && Rowed(InsertSymbols(t, ss), t.nextSymbol, ss)
  {
    if ss != [] {
      var init := ss[..|ss| - 1];
      assert NewToFile(init, file);
      hide Sound, Rowed, InsertSymbol, NewToFile;
      InsertSymbolsKeepsSound(t, file, init);
      InsertSymbolKeepsSound(InsertSymbols(t, init), ss[|ss| - 1]);
      RowedStep(InsertSymbols(t, init), t.nextSymbol, ss, file);
    }
  }

  /** No foreign key ever fails: every renumbered edge hangs off one of the new rows. */
  lemma InsertParseKeysExist(t: Tables, file: string, r: ParseResult)
    requires Sound(t) && WellFormed(r, file)
    ensures var u := InsertSymbols(t, r.symbols);
            forall e :: e in RemapEdges(r.edges, IdMap(t.nextSymbol, |r.symbols|)) ==> KeysExist(u, e)
  {
    hide InsertSymbols, RemapEdges, IdMap, Sound;
    var u := InsertSymbols(t, r.symbols);
    InsertSymbolsKeepsSound(t, file, r.symbols);
    forall e | e in RemapEdges(r.edges, IdMap(t.nextSymbol, |r.symbols|))
      ensures KeysExist(u, e)
    {
      RemappedEdge(r, file, t.nextSymbol, e);
      assert r.symbols[e.sourceId - t.nextSymbol].id == e.sourceId - t.nextSymbol;
    }
  }

  lemma AppendKeepsOrder(rows: seq<EdgeRow>, next: nat, es: seq<Edge>)
    requires Increasing(rows, next)
    ensures Increasing(rows + EdgeRows(next, es), next + |es|)
  {
  }

  lemma InsertParseKeepsSound(t: Tables, file: string, r: ParseResult)
    requires Sound(t) && WellFormed(r, file)
    ensures Sound(InsertParse(t, file, r))
  {
    hide InsertSymbols, RemapEdges, IdMap, EdgeRows, Increasing;
    InsertSymbolsKeepsSound(t, file, r.symbols);
    var b := InsertSymbols(t, r.symbols);
    AppendKeepsOrder(b.edges, b.nextEdge, RemapEdges(r.edges, IdMap(t.nextSymbol, |r.symbols|)));
    assert forall x :: x in Rows(file, r.exports) ==> x.entry in r.exports;
  }

  /** Closed form of `InsertParse` on a vacant file. */
  lemma InsertedShape(t: Tables, file: string, r: ParseResult)
    requires Vacant(t, file) && WellFormed(r, file)
    ensures var u := InsertParse(t, file, r);
            && u.symbols == t.symbols + NewSymbols(t.nextSymbol, r.symbols)
            && u.nextSymbol == t.nextSymbol + |r.symbols|
            && u.edges == t.edges + EdgeRows(t.nextEdge, RemapEdges(r.edges, IdMap(t.nextSymbol, |r.symbols|)))
            && u.nextEdge == t.nextEdge + |RemapEdges(r.edges, IdMap(t.nextSymbol, |r.symbols|))|
            && u.imports == t.imports + Rows(file, r.imports)
            && u.exports == t.exports + Rows(file, r.exports)
            && u.files == t.files[file := FileRow(LanguageName(file), |r.symbols|)]
  {
    InsertSymbolsAdds(t, file, r.symbols);
  }

  /** Every edge that survives the renumbering hangs off one of the new rows and waits under a name. */
  lemma RemappedEdge(r: ParseResult, file: string, first: nat, e: Edge)
    requires WellFormed(r, file) && e in RemapEdges(r.edges, IdMap(first, |r.symbols|))
    ensures first <= e.sourceId < first + |r.symbols| && e.targetId.None? && e.targetName.Some?
  {
    var ids := IdMap(first, |r.symbols|);
    var kept := Filter(r.edges, Mapped(ids));
    var i :| 0 <= i < |kept| && e == Renumber(ids)(kept[i]);
    assert kept[i] in kept;
  }

  lemma InsertKeepsIntegrity(t: Tables, file: string, r: ParseResult)
    requires Integrity(t) && Vacant(t, file) && WellFormed(r, file)
    ensures Integrity(InsertParse(t, file, r))
  {
    hide InsertParse, RemapEdges, IdMap;
    var u := InsertParse(t, file, r);
    InsertedShape(t, file, r);
    InsertParseKeepsSound(t, file, r);
    hide Sound;
    var es := RemapEdges(r.edges, IdMap(t.nextSymbol, |r.symbols|));
    var rows := EdgeRows(t.nextEdge, es);
    forall i | 0 <= i < |u.edges|
      ensures EdgeOk(u.symbols, u.edges[i])
    {
      if i < |t.edges| {
        assert EdgeOk(t.symbols, t.edges[i]);
      } else {
        assert u.edges[i] == rows[i - |t.edges|];
        RemappedEdge(r, file, t.nextSymbol, es[i - |t.edges|]);
      }
    }
  }

  lemma InsertView(t: Tables, file: string, r: ParseResult, g: string)
    requires Integrity(t) && Vacant(t, file) && WellFormed(r, file)
    requires View(t, file) == NOTHING
    ensures View(InsertParse(t, file, r), g) == if g == file then Contribution(file, r) else View(t, g)
  {
    hide InsertParse, EdgesOf, EntriesOf, RemapEdges, SymbolsIn;
    var u := InsertParse(t, file, r);
    InsertedShape(t, file, r);
    InsertEdgesView(t, file, r, g);
    InsertRows(t.imports, file, r.imports, g);
    InsertRows(t.exports, file, r.exports, g);
    InsertSymbolsView(t, file, r, g);
  }

  lemma InsertSymbolsView(t: Tables, file: string, r: ParseResult, g: string)
    requires Integrity(t) && Vacant(t, file) && WellFormed(r, file)
    ensures SymbolsIn(InsertParse(t, file, r), g) ==
            if g == file then set s | s in r.symbols :: Anonymous(s) else SymbolsIn(t, g)
  {
    hide InsertParse, RemapEdges, Ordered, NewSymbols, SymbolsIn, EdgeOk;
    var u := InsertParse(t, file, r);
    InsertedShape(t, file, r);
    assert forall id :: id in t.symbols ==> id < t.nextSymbol;
    if g == file {
      OwnSymbols(t, u, file, r.symbols);
    } else {
      OtherSymbols(t, u, file, r.symbols, g);
    }
  }

  lemma OwnSymbols(t: Tables, u: Tables, file: string, ss: seq<Symbol>)
    requires Vacant(t, file) && (forall s :: s in ss ==> s.file == file)
    requires u.symbols == t.symbols + NewSymbols(t.nextSymbol, ss)
    ensures SymbolsIn(u, file) == set s | s in ss :: Anonymous(s)
  {
    hide NewSymbols;
    forall s | s in ss
      ensures Anonymous(s) in SymbolsIn(u, file)
    {
      var i :| 0 <= i < |ss| && ss[i] == s;
      assert u.symbols[t.nextSymbol + i] == s.(id := t.nextSymbol + i);
    }
    forall id | id in u.symbols && u.symbols[id].file == file
      ensures exists s :: s in ss && Anonymous(u.symbols[id]) == Anonymous(s)
    {
      assert ss[id - t.nextSymbol] in ss;
    }
  }

  lemma OtherSymbols(t: Tables, u: Tables, file: string, ss: seq<Symbol>, g: string)
    requires g != file && (forall s :: s in ss ==> s.file == file) && forall id :: id in t.symbols ==> id < t.nextSymbol
    requires u.symbols == t.symbols + NewSymbols(t.nextSymbol, ss)
    ensures SymbolsIn(u, g) == SymbolsIn(t, g)
  {
    hide NewSymbols;
    forall id | id in t.symbols
      ensures id in u.symbols && u.symbols[id] == t.symbols[id]
    {
    }
    assert SymbolsIn(u, g) <= SymbolsIn(t, g);
  }

  lemma InsertRows<T(!new)>(rows: seq<Row<T>>, file: string, entries: seq<T>, g: string)
    requires EntriesOf(rows, file) == []
    ensures EntriesOf(rows + Rows(file, entries), g) == if g == file then entries else EntriesOf(rows, g)
  {
    var added := Rows(file, entries);
    FilterConcat(rows, added, Inside(g));
    if g == file {
      FilterAll(added, Inside(g));
    } else {
      FilterNone(added, Inside(g));
    }
  }

  lemma InsertEdgesView(t: Tables, file: string, r: ParseResult, g: string)
    requires Integrity(t) && Vacant(t, file) && WellFormed(r, file)
    ensures EdgesOf(InsertParse(t, file, r), g) ==
            if g == file then Map(Filter(r.edges, HasSource(r)), EdgeByName(r)) else EdgesOf(t, g)
  {
    hide InsertParse, RemapEdges, Integrity, IdMap, EdgeRows, WellFormed, NewSymbols, OwnedBy, Abstract, HasSource,
      EdgeByName;
    var u := InsertParse(t, file, r);
    InsertedShape(t, file, r);
    var rows := EdgeRows(t.nextEdge, RemapEdges(r.edges, IdMap(t.nextSymbol, |r.symbols|)));
    var kept := Filter(t.edges, OwnedBy(u, g));
    FilterConcat(t.edges, rows, OwnedBy(u, g));
    MapConcat(kept, Filter(rows, OwnedBy(u, g)), Abstract(u));
    OldEdgesView(t, u, g, t.nextSymbol, r.symbols);
    NewEdgesOwner(t, u, file, r, g);
    NewNames(t, u, r.symbols);
    NewEdgesView(t.nextSymbol, t.nextEdge, u, file, r);
    if g == file {
      VacantEdges(t, file);
      assert kept == [];
    }
  }

  lemma NewNames(t: Tables, u: Tables, ss: seq<Symbol>)
    requires u.symbols == t.symbols + NewSymbols(t.nextSymbol, ss)
    ensures Rowed(u, t.nextSymbol, ss)
  {
    hide NewSymbols;
    forall i | 0 <= i < |ss|
      ensures RowedAt(u, t.nextSymbol + i, ss[i].name)
    {
    }
  }

  lemma VacantEdges(t: Tables, file: string)
    requires Vacant(t, file)
    ensures EdgesOf(t, file) == []
  {
    FilterNone(t.edges, OwnedBy(t, file));
  }

  /** The new rows belong to the new file, all of them. */
  lemma NewEdgesOwner(t: Tables, u: Tables, file: string, r: ParseResult, g: string)
    requires WellFormed(r, file)
    requires u.symbols == t.symbols + NewSymbols(t.nextSymbol, r.symbols)
    ensures var rows := EdgeRows(t.nextEdge, RemapEdges(r.edges, IdMap(t.nextSymbol, |r.symbols|)));
            Filter(rows, OwnedBy(u, g)) == if g == file then rows else []
  {
    hide RemapEdges, IdMap;
    var es := RemapEdges(r.edges, IdMap(t.nextSymbol, |r.symbols|));
    var rows := EdgeRows(t.nextEdge, es);
    forall i | 0 <= i < |rows|
      ensures OwnedBy(u, g)(rows[i]) == (g == file)
    {
      RemappedEdge(r, file, t.nextSymbol, es[i]);
    }
    if g == file {
      FilterAll(rows, OwnedBy(u, g));
    } else {
      FilterNone(rows, OwnedBy(u, g));
    }
  }

  /** Adding symbols under fresh ids changes nothing for the rows already there. */
  lemma OldEdgesView(t: Tables, u: Tables, g: string, first: nat, ss: seq<Symbol>)
    requires Integrity(t) && first == t.nextSymbol
    requires u.symbols == t.symbols + NewSymbols(first, ss)
    ensures Map(Filter(t.edges, OwnedBy(u, g)), Abstract(u)) == EdgesOf(t, g)
  {
    forall i | 0 <= i < |t.edges|
      ensures OwnedBy(t, g)(t.edges[i]) == OwnedBy(u, g)(t.edges[i])
      ensures Abstract(t)(t.edges[i]) == Abstract(u)(t.edges[i])
    {
      assert EdgeOk(t.symbols, t.edges[i]);
    }
    SelectCong(t.edges, OwnedBy(t, g), Abstract(t), t.edges, OwnedBy(u, g), Abstract(u));
  }

  lemma NewEdgesView(first: nat, firstEdge: nat, u: Tables, file: string, r: ParseResult)
    requires WellFormed(r, file)
    requires Rowed(u, first, r.symbols)
    ensures Map(EdgeRows(firstEdge, RemapEdges(r.edges, IdMap(first, |r.symbols|))), Abstract(u))
            == Map(Filter(r.edges, HasSource(r)), EdgeByName(r))
  {
    hide Abstract, EdgeByName, Renumber, WellFormed, RowFor, Mapped, HasSource, Rowed, IdMap;
    var ids := IdMap(first, |r.symbols|);
    SameSources(first, r);
    var kept := Filter(r.edges, Mapped(ids));
    var rows := EdgeRows(firstEdge, RemapEdges(r.edges, ids));
    forall i | 0 <= i < |kept|
      ensures Abstract(u)(rows[i]) == EdgeByName(r)(kept[i])
    {
      assert kept[i] in kept;
      NewEdgeView(first, firstEdge + i, u, file, r, kept[i]);
      assert rows[i] == RowFor(firstEdge + i, Renumber(ids)(kept[i]));
    }
  }

  lemma SameSources(first: nat, r: ParseResult)
    ensures Filter(r.edges, Mapped(IdMap(first, |r.symbols|))) == Filter(r.edges, HasSource(r))
  {
    FilterCong(r.edges, Mapped(IdMap(first, |r.symbols|)), HasSource(r));
  }

  lemma NewEdgeView(first: nat, row: nat, u: Tables, file: string, r: ParseResult, e: Edge)
    requires WellFormed(r, file) && e in r.edges && HasSource(r)(e)
    requires Rowed(u, first, r.symbols)
    ensures Abstract(u)(RowFor(row, Renumber(IdMap(first, |r.symbols|))(e))) == EdgeByName(r)(e)
  {
    assert r.symbols[e.sourceId].id == e.sourceId;
  }
}
