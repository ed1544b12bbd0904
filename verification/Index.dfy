/** The indexer (crates/visp-codegraph/src/index.rs), updating the store in place. */
module Index {
  import opened Collections
  import opened Graph
  import opened Languages
  import opened Tables
  import Sql = Tables
  import opened IndexSpec
  import opened IndexRuns
  import opened Storage
  import opened TreeViews
  import Parser

  // ---- How far the resolution loop has come ----

  /** The waiting edges with an id in `done` are resolved, all other rows are as before. */
  ghost predicate Progress(before: Tables, done: set<nat>, edges: seq<EdgeRow>) {
    && |edges| == |before.edges|
    && forall i :: 0 <= i < |edges| ==>
         if before.edges[i].id in done then ResolvedRow(before, before.edges[i], edges[i])
         else edges[i] == before.edges[i]
  }

  lemma UnresolvedRowIs(edges: seq<EdgeRow>, row: (nat, string)) returns (i: nat)
    requires WaitingRow(edges, row)
    ensures i < |edges| && Unresolved(edges[i]) && row == (edges[i].id, edges[i].name.value)
  {
    var e :| e in edges && Unresolved(e) && row == (e.id, e.name.value);
    i :| 0 <= i < |edges| && edges[i] == e;
  }

  /** One round of the loop, whichever candidate comes first. */
  lemma BindStep(before: Tables, done: set<nat>, edges: seq<EdgeRow>, row: (nat, string), candidates: seq<Symbol>)
    requires Ordered(before) && Progress(before, done, edges)
    requires WaitingRow(before.edges, row) && SymbolsNamed(before, row.1, candidates)
    ensures Progress(before, done + {row.0},
      if candidates == [] then edges else Map(edges, BindRow(row.0, candidates[0].id)))
  {
    var j := UnresolvedRowIs(before.edges, row);
    assert forall i :: 0 <= i < |edges| && before.edges[i].id == row.0 ==> i == j;
    assert candidates != [] ==> candidates[0] in candidates;
    assert NameKnown(before, row.1) <==> candidates != [];
  }

  lemma ResolveKeepsSound(t: Tables, u: Tables)
    requires Sound(t) && Resolved(t, u)
    ensures Sound(u)
  {
    forall i | 0 <= i < |u.edges|
      ensures u.edges[i].id == t.edges[i].id
    {
      assert ResolvedRow(t, t.edges[i], u.edges[i]);
    }
  }

  class Indexer {
    const store: Store

    constructor (store: Store)
      ensures this.store == store
    {
      this.store := store;
    }

    /** Binds every waiting edge whose name some symbol has, to the first symbol the query returns. */
    method ResolveCrossFileEdges()
      requires Sound(store.Contents())
      modifies store
      ensures Resolved(old(store.Contents()), store.Contents()) && Sound(store.Contents())
    {
      hide Sound, BindRow, WaitingRow, Selects, SymbolsNamed, ResolvedRow;
      ghost var before := store.Contents();
      assert SymbolsOk(before) && Ordered(before) by { SoundMeans(before); }
      var unresolved := store.GetUnresolvedEdges();
      ghost var done: set<nat> := {};
      for k := 0 to |unresolved|
        invariant store.Contents() == before.(edges := store.edges)
        invariant Progress(before, done, store.edges)
        invariant forall l :: 0 <= l < k ==> unresolved[l].0 in done
      {
        var (edgeId, name) := unresolved[k];
        var candidates := store.GetSymbolsByName(name);
        assert unresolved[k] in unresolved;
        BindStep(before, done, store.edges, unresolved[k], candidates);
        if candidates != [] {
          store.ResolveEdge(edgeId, candidates[0].id);
        }
        done := done + {edgeId};
      }
      AllDone(before, done, unresolved, store.Contents());
      ResolveKeepsSound(before, store.Contents());
    }

    /** Zips the temporary ids with the row ids. */
    method ZipIds(symbols: seq<Symbol>, rows: seq<Symbol>, ghost first: nat) returns (ids: map<nat, nat>)
      requires |symbols| == |rows|
      requires forall i :: 0 <= i < |rows| ==> symbols[i].id == i && rows[i].id == first + i
      ensures ids == IdMap(first, |rows|)
    {
      ids := map[];
      for i := 0 to |rows|
        invariant ids == IdMap(first, i)
      {
        ids := ids[symbols[i].id := rows[i].id];
      }
    }

    /** Renumbers the sources; an edge whose source has no row is skipped. */
    method RemapSources(edges: seq<Edge>, ids: map<nat, nat>) returns (remapped: seq<Edge>)
      ensures remapped == RemapEdges(edges, ids)
    {
      remapped := [];
      for i := 0 to |edges|
        invariant remapped == RemapEdges(edges[..i], ids)
      {
        RemapStep(edges, i, ids);
        if edges[i].sourceId in ids {
          remapped := remapped + [edges[i].(sourceId := ids[edges[i].sourceId])];
        }
      }
      assert edges[..|edges|] == edges;
    }

    /** Puts the parse of one file into the tables; no foreign key ever fails. */
    method InsertFile(file: string, r: ParseResult) returns (ok: bool)
      requires Sound(store.Contents()) && WellFormed(r, file)
      modifies store
      ensures ok && store.Contents() == InsertParse(old(store.Contents()), file, r) && Sound(store.Contents())
    {
      hide Sound, Sql.InsertSymbols, IdMap, RemapEdges, EdgeRows;
      ghost var t := store.Contents();
      InsertParseKeysExist(t, file, r);
      InsertParseKeepsSound(t, file, r);
      var rows := store.InsertSymbols(r.symbols);
      var ids := ZipIds(r.symbols, rows, t.nextSymbol);
      var edges := RemapSources(r.edges, ids);
      ok := store.InsertEdges(edges);
      store.InsertImports(file, r.imports);
      store.InsertExports(file, r.exports);
      store.UpsertFile(file, LanguageName(file), |rows|);
    }

    /** Indexes every file of the listing that can be read and parsed, then resolves names. */
    method BuildFull(files: seq<string>, disk: Disk) returns (ok: bool)
      requires Sound(store.Contents())
      requires forall f :: f in files ==> f in disk
      modifies store
      ensures ok && Built(old(store.Contents()), files, disk, store.Contents()) && Sound(store.Contents())
      ensures old(store.Contents()) == EMPTY && Lists(files, disk) ==>
                forall g :: View(store.Contents(), g) == DiskView(disk, g)
    {
      hide Sound, InsertParse, WellFormed;
      ok := true;
      for i := 0 to |files|
        invariant ok && Sound(store.Contents())
        invariant store.Contents() == InsertAll(old(store.Contents()), files[..i], disk)
      {
        assert files[..i + 1][..i] == files[..i];
        var parsed := ReadAndParse(files[i], disk[files[i]]);
        if parsed.Some? {
          ok := InsertFile(files[i], parsed.value);
        }
      }
      assert files[..|files|] == files;
      ResolveCrossFileEdges();
      if old(store.Contents()) == EMPTY && Lists(files, disk) {
        AllShown(files, disk, store.Contents());
      }
    }

    method ReadAndParse(file: string, source: Source) returns (r: Option<ParseResult>)
      ensures r == Parse(file, source)
    {
      r := None;
      var lang := LanguageOf(file);
      if lang.Some? && source.Parsable? {
        var p := Parser.ParseFile(file, lang.value, source.root);
        r := Some(p);
      }
    }

    /** One event for one file; `ok` is false when the new contents cannot be read or parsed. */
    method UpdateFile(c: Change) returns (ok: bool)
      requires Sound(store.Contents())
      modifies store
      ensures Updated(old(store.Contents()), c, store.Contents()) && Sound(store.Contents())
      ensures ok <==> c.event == Removed || (c.source.Parsable? && LanguageOf(c.file).Some?)
      ensures Integrity(old(store.Contents())) ==>
                && View(store.Contents(), c.file)
                    == (if c.event == Removed then NOTHING else SourceView(c.file, c.source))
                && forall g :: g != c.file ==> View(store.Contents(), g) == View(old(store.Contents()), g)
    {
      hide Sound, Integrity, InsertParse, WellFormed, DeleteFileData, View, SourceView;
      ghost var before := store.Contents();
      DeleteKeepsSound(store.Contents(), c.file);
      store.DeleteFileData(c.file);
      if c.event == Removed {
        UpdateShown(before, c, store.Contents());
        return true;
      }
      var parsed := ReadAndParse(c.file, c.source);
      if parsed.None? {
        UpdateShown(before, c, store.Contents());
        return false;
      }
      ok := InsertFile(c.file, parsed.value);
      ResolveCrossFileEdges();
      UpdateShown(before, c, store.Contents());
    }
  }

  lemma AllShown(files: seq<string>, disk: Disk, u: Tables)
    requires Lists(files, disk) && Built(EMPTY, files, disk, u)
    ensures forall g :: View(u, g) == DiskView(disk, g)
  {
    hide View, DiskView, Built;
    forall g
      ensures View(u, g) == DiskView(disk, g)
    {
      BuildShowsTrees(files, disk, u, g);
    }
  }

  lemma UpdateShown(t: Tables, c: Change, u: Tables)
    requires Updated(t, c, u)
    ensures Integrity(t) ==>
              && View(u, c.file) == (if c.event == Removed then NOTHING else SourceView(c.file, c.source))
              && forall g :: g != c.file ==> View(u, g) == View(t, g)
  {
    hide View, SourceView, Updated, Integrity;
    if Integrity(t) {
      UpdateShowsTree(t, c, u, c.file);
      forall g | g != c.file
        ensures View(u, g) == View(t, g)
      {
        UpdateShowsTree(t, c, u, g);
      }
    }
  }

  lemma SoundMeans(t: Tables)
    requires Sound(t)
    ensures SymbolsOk(t) && Ordered(t)
  {
  }

  lemma AllDone(before: Tables, done: set<nat>, unresolved: seq<(nat, string)>, after: Tables)
    requires forall row :: WaitingRow(before.edges, row) ==> row in unresolved
    requires forall l :: 0 <= l < |unresolved| ==> unresolved[l].0 in done
    requires Progress(before, done, after.edges) && after == before.(edges := after.edges)
    ensures Resolved(before, after)
  {
    forall i | 0 <= i < |before.edges|
      ensures ResolvedRow(before, before.edges[i], after.edges[i])
    {
      if Unresolved(before.edges[i]) {
        assert before.edges[i] in before.edges;
        assert WaitingRow(before.edges, (before.edges[i].id, before.edges[i].name.value));
      }
    }
  }

  lemma RemapStep(edges: seq<Edge>, i: nat, ids: map<nat, nat>)
    requires i < |edges|
    ensures RemapEdges(edges[..i + 1], ids) == RemapEdges(edges[..i], ids)
            + if edges[i].sourceId in ids then [edges[i].(sourceId := ids[edges[i].sourceId])] else []
  {
    assert edges[..i + 1][..i] == edges[..i];
  }
}
