/**
 * What the statements of the store do to the rows (crates/visp-codegraph/src/store.rs), row by row:
 * which rows are there afterwards and what is in them.
 */
module Statements {
  import opened Collections
  import opened Graph
  import opened Tables
  import opened IndexSpec
  import opened Storage

  lemma FilterMapRows(rows: seq<EdgeRow>, p: EdgeRow -> bool, f: EdgeRow -> EdgeRow)
    ensures forall r :: r in Map(Filter(rows, p), f) <==> exists e :: e in rows && p(e) && r == f(e)
  {
    var kept := Filter(rows, p);
    forall e | e in rows && p(e)
      ensures f(e) in Map(kept, f)
    {
      var k :| 0 <= k < |kept| && kept[k] == e;
      assert Map(kept, f)[k] == f(e);
    }
    forall k | 0 <= k < |kept|
      ensures kept[k] in rows && p(kept[k])
    {
      assert kept[k] in kept;
    }
  }

  /** Deleting symbols takes their edges and exports along and empties the targets of other edges. */
  lemma DeleteRows(t: Tables, dead: set<nat>)
    ensures var u := DeleteSymbols(t, dead);
            && u == t.(symbols := u.symbols, edges := u.edges, exports := u.exports)
            && (forall id :: id in u.symbols <==> id in t.symbols && id !in dead)
            && (forall id :: id in u.symbols ==> u.symbols[id] == t.symbols[id])
            && (forall r :: r in u.edges <==>
                  exists e :: e in t.edges && e.source !in dead
                              && r == if e.target.Some? && e.target.value in dead
                                      then EdgeRow(e.id, e.source, None, e.name, e.kind) else e)
            && (forall x :: x in u.exports <==>
                  x in t.exports && (x.entry.symbol.None? || x.entry.symbol.value !in dead))
  {
    FilterMapRows(t.edges, SourceOutside(dead), Detach(dead));
    hide Filter, Map;
  }

  /** The edge as the removal of a file leaves it: under the name of its target if that was in the file. */
  function Left(t: Tables, file: string, e: EdgeRow): EdgeRow {
    if e.target.Some? && e.target.value in t.symbols && t.symbols[e.target.value].file == file
    then EdgeRow(e.id, e.source, None, Some(t.symbols[e.target.value].name), e.kind)
    else e
  }

  /** The removal of a file's data, from tables whose edges have live ends. */
  lemma RemoveFileRows(t: Tables, file: string)
    requires Integrity(t)
    ensures var u := DeleteFileData(t, file);
            && u.nextSymbol == t.nextSymbol && u.nextEdge == t.nextEdge
            && (forall id :: id in u.symbols <==> id in t.symbols && t.symbols[id].file != file)
            && (forall id :: id in u.symbols ==> u.symbols[id] == t.symbols[id])
            && (forall r :: r in u.edges <==>
                  exists e :: e in t.edges && t.symbols[e.source].file != file && r == Left(t, file, e))
            && (forall x :: x in u.imports <==> x in t.imports && x.file != file)
            && (forall x :: x in u.exports <==> x in t.exports && x.file != file)
            && u.files == t.files - {file}
  {
    hide DeleteFileData, Integrity;
    HasSound(t);
    DeletedShape(t, file);
    FileRows(t, file);
    hide Filter, Map, Left;
  }

  lemma HasSound(t: Tables)
    requires Integrity(t)
    ensures Sound(t) && forall e :: e in t.edges ==> e.source in t.symbols
  {
  }

  lemma FileRows(t: Tables, file: string)
    requires forall e :: e in t.edges ==> e.source in t.symbols
    ensures var ids := SymbolsOf(t, file);
            forall r :: r in Map(Filter(t.edges, SourceOutside(ids)), Unbind(t.symbols, ids))
              <==> exists e :: e in t.edges && t.symbols[e.source].file != file && r == Left(t, file, e)
  {
    var ids := SymbolsOf(t, file);
    FilterMapRows(t.edges, SourceOutside(ids), Unbind(t.symbols, ids));
    hide Filter, Map;
    forall e | e in t.edges
      ensures SourceOutside(ids)(e) <==> t.symbols[e.source].file != file
      ensures Unbind(t.symbols, ids)(e) == Left(t, file, e)
    {
    }
    hide SourceOutside, Unbind, Left;
  }

  /** A symbol replaces the one of its file and name, if there is one, under a new id. */
  lemma InsertSymbolRow(t: Tables, s: Symbol)
    requires SymbolsOk(t)
    ensures var u := InsertSymbol(t, s);
            && u.nextSymbol == t.nextSymbol + 1 && t.nextSymbol in u.symbols
            && u.symbols[t.nextSymbol] == Symbol(t.nextSymbol, s.name, s.kind, s.file, s.line, s.column,
                                                 s.signature, s.docstring)
            && (forall id :: id != t.nextSymbol ==>
                  (id in u.symbols <==>
                    id in t.symbols && !(t.symbols[id].file == s.file && t.symbols[id].name == s.name)))
            && (forall id :: id != t.nextSymbol && id in u.symbols ==> u.symbols[id] == t.symbols[id])
  {
    hide Filter, Map;
  }

  /** New edges get the next ids, in order, and what they were given. */
  lemma InsertEdgeRows(t: Tables, es: seq<Edge>)
    ensures var u := InsertEdges(t, es);
            && u == t.(edges := u.edges, nextEdge := t.nextEdge + |es|)
            && |u.edges| == |t.edges| + |es| && u.edges[..|t.edges|] == t.edges
            && forall i :: 0 <= i < |es| ==>
                u.edges[|t.edges| + i]
                == EdgeRow(t.nextEdge + i, es[i].sourceId, es[i].targetId, es[i].targetName, es[i].kind)
  {
  }

  /** The foreign keys of an edge: its source exists, and its target if it has one. */
  lemma KeysExistIff(t: Tables, e: Edge)
    ensures KeysExist(t, e) <==> e.sourceId in t.symbols && (e.targetId == None || e.targetId.value in t.symbols)
  {
  }

  /** Import and export rows keep the order of the entries. */
  lemma EntryRows<T>(file: string, entries: seq<T>)
    ensures |Rows(file, entries)| == |entries|
    ensures forall i :: 0 <= i < |entries| ==> Rows(file, entries)[i] == Row(file, entries[i])
  {
  }

  /** Binding an edge sets its target, clears its name, and leaves all other rows alone. */
  lemma BindRows(rows: seq<EdgeRow>, edgeId: nat, target: nat)
    ensures var r := Map(rows, BindRow(edgeId, target));
            && |r| == |rows|
            && forall i :: 0 <= i < |rows| ==>
                r[i] == if rows[i].id != edgeId then rows[i]
                        else EdgeRow(edgeId, rows[i].source, Some(target), None, rows[i].kind)
  {
  }
}
