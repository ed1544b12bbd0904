/**
 * The relational store (crates/visp-codegraph/src/store.rs): the tables as fields, each method
 * proved to be the statement of module Tables it runs.
 */
module Storage {
  import opened Collections
  import opened Graph
  import opened Tables
  import Sql = Tables

  /** `r` is the result of a SELECT without ORDER BY: the matching rows, each once, in any order. */
  ghost predicate SymbolsNamed(t: Tables, name: string, r: seq<Symbol>) {
    && (forall s :: s in r ==> s.id in t.symbols && t.symbols[s.id] == s && s.name == name)
    && (forall id :: id in t.symbols && t.symbols[id].name == name ==> t.symbols[id] in r)
    && (forall i, j :: 0 <= i < j < |r| ==> r[i] != r[j])
  }

  // ---- Selecting edges without ORDER BY ----

  function BoundTo(symbols: map<nat, Symbol>, id: nat): EdgeRow -> bool {
    (e: EdgeRow) => e.target == Some(id) && e.source in symbols
  }

  function BoundFrom(symbols: map<nat, Symbol>, id: nat): EdgeRow -> bool {
    (e: EdgeRow) => e.source == id && e.target.Some? && e.target.value in symbols
  }

  predicate Waits(e: EdgeRow) {
    Unresolved(e)
  }

  function SourceRow(symbols: map<nat, Symbol>): EdgeRow -> (string, string) {
    (e: EdgeRow) => NameAndFile(symbols, e.source)
  }

  function TargetRow(symbols: map<nat, Symbol>): EdgeRow -> (string, string) {
    (e: EdgeRow) => if e.target.Some? then NameAndFile(symbols, e.target.value) else ("", "")
  }

  function NamedRow(e: EdgeRow): (nat, string) {
    (e.id, if e.name.Some? then e.name.value else "")
  }

  /** `r` has one row for each of the positions `all`, in the order of `picks`. */
  ghost predicate Picked<T>(edges: seq<EdgeRow>, f: EdgeRow -> T, r: seq<T>, picks: seq<nat>, all: set<nat>) {
    && |picks| == |r|
    && (forall i, j :: 0 <= i < j < |picks| ==> picks[i] != picks[j])
    && (forall k :: k in picks <==> k in all)
    && (forall i :: 0 <= i < |r| ==> picks[i] < |edges| && r[i] == f(edges[picks[i]]))
  }

  function Matching(edges: seq<EdgeRow>, p: EdgeRow -> bool): set<nat> {
    set k: nat | k < |edges| && p(edges[k])
  }

  /** `r` has one row for every edge that satisfies `p`. */
  ghost predicate Selects<T>(edges: seq<EdgeRow>, p: EdgeRow -> bool, f: EdgeRow -> T, r: seq<T>, picks: seq<nat>) {
    Picked(edges, f, r, picks, Matching(edges, p))
  }

  lemma PickOne<T>(edges: seq<EdgeRow>, f: EdgeRow -> T, r: seq<T>, picks: seq<nat>, done: set<nat>, k: nat)
    requires Picked(edges, f, r, picks, done) && k !in done && k < |edges|
    ensures Picked(edges, f, r + [f(edges[k])], picks + [k], done + {k})
  {
  }

  lemma SelectsMeans<T>(edges: seq<EdgeRow>, p: EdgeRow -> bool, f: EdgeRow -> T, r: seq<T>, picks: seq<nat>)
    requires Selects(edges, p, f, r, picks)
    ensures forall row :: row in r <==> exists e :: e in edges && p(e) && row == f(e)
  {
    forall e | e in edges && p(e)
      ensures f(e) in r
    {
      var k :| 0 <= k < |edges| && edges[k] == e;
      assert k in picks;
      var i :| 0 <= i < |picks| && picks[i] == k;
      assert r[i] == f(e);
    }
    forall i | 0 <= i < |r|
      ensures edges[picks[i]] in edges && p(edges[picks[i]])
    {
      assert picks[i] in picks;
    }
  }

  /** SELECT f FROM edges WHERE p, in whatever order the rows come. */
  method Select<T>(edges: seq<EdgeRow>, p: EdgeRow -> bool, f: EdgeRow -> T) returns (r: seq<T>)
    ensures exists picks :: Selects(edges, p, f, r, picks)
  {
    ghost var picks: seq<nat> := [];
    r := [];
    var todo := Matching(edges, p);
    ghost var done: set<nat> := {};
    assert Picked(edges, f, r, picks, {});
    hide Picked;
    while todo != {}
      invariant Matching(edges, p) == done + todo && done !! todo && Picked(edges, f, r, picks, done)
      decreases |todo|
    {
      var k :| k in todo;
      assert k in Matching(edges, p);
      PickOne(edges, f, r, picks, done, k);
      r, picks := r + [f(edges[k])], picks + [k];
      done, todo := done + {k}, todo - {k};
    }
    assert done == Matching(edges, p);
    assert Selects(edges, p, f, r, picks);
  }

  lemma CallersMean(t: Tables, id: nat, r: seq<(string, string)>, picks: seq<nat>)
    requires Selects(t.edges, BoundTo(t.symbols, id), SourceRow(t.symbols), r, picks)
    ensures forall row :: row in r <==> CallerRow(t, id, row)
  {
    SelectsMeans(t.edges, BoundTo(t.symbols, id), SourceRow(t.symbols), r, picks);
    hide Selects, NameAndFile;
  }

  lemma CalleesMean(t: Tables, id: nat, r: seq<(string, string)>, picks: seq<nat>)
    requires Selects(t.edges, BoundFrom(t.symbols, id), TargetRow(t.symbols), r, picks)
    ensures forall row :: row in r <==> CalleeRow(t, id, row)
  {
    SelectsMeans(t.edges, BoundFrom(t.symbols, id), TargetRow(t.symbols), r, picks);
    hide Selects, NameAndFile;
  }

  lemma WaitingMean(edges: seq<EdgeRow>, r: seq<(nat, string)>, picks: seq<nat>)
    requires Selects(edges, Waits, NamedRow, r, picks)
    ensures forall row :: row in r <==> WaitingRow(edges, row)
  {
    SelectsMeans(edges, Waits, NamedRow, r, picks);
    hide Selects;
  }

  class Store {
    var symbols: map<nat, Symbol>
    var nextSymbol: nat
    var edges: seq<EdgeRow>
    var nextEdge: nat
    var imports: seq<Row<Import>>
    var exports: seq<Row<Export>>
    var files: map<string, FileRow>

    function Contents(): Tables
      reads this
    {
      Tables(symbols, nextSymbol, edges, nextEdge, imports, exports, files)
    }

    constructor ()
      ensures Contents() == EMPTY
    {
      symbols, nextSymbol := map[], 1;
      edges, nextEdge := [], 1;
      imports, exports, files := [], [], map[];
    }

    /** Runs `DELETE FROM symbols` on the given rows; the foreign keys act on edges and exports. */
    method DeleteSymbolRows(dead: set<nat>)
      modifies this
      ensures Contents() == DeleteSymbols(old(Contents()), dead)
    {
      symbols := symbols - dead;
      edges := Map(Filter(edges, SourceOutside(dead)), Detach(dead));
      exports := Filter(exports, SymbolOutside(dead));
    }

    /** INSERT OR REPLACE of one symbol; the result is the row with its new id. */
    method InsertSymbolRow(s: Symbol) returns (row: Symbol)
      modifies this
      ensures Contents() == InsertSymbol(old(Contents()), s)
      ensures row == s.(id := old(nextSymbol))
    {
      DeleteSymbolRows(SameKey(Contents(), s));
      row := s.(id := nextSymbol);
      symbols := symbols[nextSymbol := row];
      nextSymbol := nextSymbol + 1;
    }

    /** Inserts or replaces the symbols in order; `rows` are the symbols with their row ids. */
    method InsertSymbols(ss: seq<Symbol>) returns (rows: seq<Symbol>)
      modifies this
      ensures Contents() == Sql.InsertSymbols(old(Contents()), ss)
      ensures |rows| == |ss|
      ensures forall i :: 0 <= i < |ss| ==> rows[i] == ss[i].(id := old(nextSymbol) + i)
    {
      hide InsertSymbol, Sql.InsertSymbols;
      rows := [];
      InsertNoSymbols(Contents());
      for i := 0 to |ss|
        invariant Contents() == Sql.InsertSymbols(old(Contents()), ss[..i])
        invariant |rows| == i
        invariant forall k :: 0 <= k < i ==> rows[k] == ss[k].(id := old(nextSymbol) + k)
      {
        InsertSymbolsStep(old(Contents()), ss, i);
        var row := InsertSymbolRow(ss[i]);
        rows := rows + [row];
      }
      assert ss[..|ss|] == ss;
    }

    method DeleteByFile(file: string)
      modifies this
      ensures Contents() == Sql.DeleteByFile(old(Contents()), file)
    {
      DeleteSymbolRows(SymbolsOf(Contents(), file));
    }

    method DeleteFileData(file: string)
      modifies this
      ensures Contents() == Sql.DeleteFileData(old(Contents()), file)
    {
      hide Filter, Map, SymbolsOf, DeleteSymbols;
      var ids := SymbolsOf(Contents(), file);
      edges := Map(edges, Unbind(symbols, ids));
      edges := Filter(edges, SourceOutside(ids));
      DeleteSymbolRows(ids);
      imports := Filter(imports, Outside(file));
      exports := Filter(exports, Outside(file));
      files := files - {file};
    }

    /** Inserts the edges in order; a row that violates a foreign key ends the call with an error. */
    method InsertEdges(es: seq<Edge>) returns (ok: bool)
      modifies this
      ensures ok <==> forall e :: e in es ==> KeysExist(old(Contents()), e)
      ensures ok ==> Contents() == Sql.InsertEdges(old(Contents()), es)
      ensures !ok ==> exists k :: 0 <= k < |es| && !KeysExist(old(Contents()), es[k])
                                  && Contents() == Sql.InsertEdges(old(Contents()), es[..k])
    {
      for i := 0 to |es|
        invariant Contents() == Sql.InsertEdges(old(Contents()), es[..i])
        invariant forall e :: e in es[..i] ==> KeysExist(old(Contents()), e)
      {
        if !KeysExist(Contents(), es[i]) {
          assert es[i] in es;
          return false;
        }
        assert EdgeRows(old(nextEdge), es[..i + 1]) == EdgeRows(old(nextEdge), es[..i]) + [RowFor(nextEdge, es[i])];
        edges := edges + [RowFor(nextEdge, es[i])];
        nextEdge := nextEdge + 1;
      }
      assert es[..|es|] == es;
      return true;
    }

    method InsertImports(file: string, entries: seq<Import>)
      modifies this
      ensures Contents() == old(Contents()).(imports := old(imports) + Rows(file, entries))
    {
      for i := 0 to |entries|
        invariant Contents() == old(Contents()).(imports := old(imports) + Rows(file, entries[..i]))
      {
        imports := imports + [Row(file, entries[i])];
      }
      assert entries[..|entries|] == entries;
    }

    /** Every export comes without a symbol id, so its foreign key always holds. */
    method InsertExports(file: string, entries: seq<Export>)
      requires forall x :: x in entries ==> x.symbol.None?
      modifies this
      ensures Contents() == old(Contents()).(exports := old(exports) + Rows(file, entries))
    {
      for i := 0 to |entries|
        invariant Contents() == old(Contents()).(exports := old(exports) + Rows(file, entries[..i]))
      {
        exports := exports + [Row(file, entries[i])];
      }
      assert entries[..|entries|] == entries;
    }

    method UpsertFile(path: string, language: string, count: nat)
      modifies this
      ensures Contents() == old(Contents()).(files := old(files)[path := FileRow(language, count)])
    {
      files := files[path := FileRow(language, count)];
    }

    method GetSymbolsByName(name: string) returns (r: seq<Symbol>)
      requires SymbolsOk(Contents())
      ensures SymbolsNamed(Contents(), name, r)
    {
      r := [];
      var todo := set id | id in symbols && symbols[id].name == name;
      ghost var all := todo;
      while todo != {}
        invariant todo <= all
        invariant forall id :: id in all - todo ==> symbols[id] in r
        invariant forall s :: s in r ==> s.id in all - todo && symbols[s.id] == s
        invariant forall i, j :: 0 <= i < j < |r| ==> r[i] != r[j]
        decreases |todo|
      {
        var id :| id in todo;
        r := r + [symbols[id]];
        todo := todo - {id};
      }
    }

    /** Name and file of every edge's source that is bound to the symbol, one row an edge, in any order. */
    method GetCallers(id: nat) returns (r: seq<(string, string)>)
      ensures exists picks :: Selects(edges, BoundTo(symbols, id), SourceRow(symbols), r, picks)
      ensures forall row :: row in r <==> CallerRow(Contents(), id, row)
    {
      hide Selects;
      r := Select(edges, BoundTo(symbols, id), SourceRow(symbols));
      ghost var picks :| Selects(edges, BoundTo(symbols, id), SourceRow(symbols), r, picks);
      CallersMean(Contents(), id, r, picks);
    }

    /** Name and file of every symbol an edge of the source is bound to, one row an edge, in any order. */
    method GetCallees(id: nat) returns (r: seq<(string, string)>)
      ensures exists picks :: Selects(edges, BoundFrom(symbols, id), TargetRow(symbols), r, picks)
      ensures forall row :: row in r <==> CalleeRow(Contents(), id, row)
    {
      hide Selects;
      r := Select(edges, BoundFrom(symbols, id), TargetRow(symbols));
      ghost var picks :| Selects(edges, BoundFrom(symbols, id), TargetRow(symbols), r, picks);
      CalleesMean(Contents(), id, r, picks);
    }

    /** The waiting edges with their names, one row an edge, in any order. */
    method GetUnresolvedEdges() returns (r: seq<(nat, string)>)
      ensures exists picks :: Selects(edges, Waits, NamedRow, r, picks)
      ensures forall row :: row in r <==> WaitingRow(edges, row)
    {
      hide Selects;
      r := Select(edges, Waits, NamedRow);
      ghost var picks :| Selects(edges, Waits, NamedRow, r, picks);
      WaitingMean(edges, r, picks);
    }

    method ResolveEdge(edgeId: nat, target: nat)
      modifies this`edges
      ensures edges == Map(old(edges), BindRow(edgeId, target))
    {
      edges := Map(edges, BindRow(edgeId, target));
    }
  }

  /** UPDATE edges SET target_id = target, target_name = NULL WHERE id = edgeId. */
  function BindRow(edgeId: nat, target: nat): EdgeRow -> EdgeRow {
    (e: EdgeRow) => if e.id == edgeId then e.(target := Some(target), name := None) else e
  }
}
