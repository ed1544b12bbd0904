/**
 * What happens to single edge rows over a run, and exactly when a deletion or a replacement leaves
 * the edges in order (crates/visp-codegraph/src/store.rs, crates/visp-codegraph/src/index.rs).
 */
module IndexEdges {
  import opened Collections
  import opened Graph
  import opened Tables
  import opened IndexSpec
  import opened IndexRuns

  // ---- An edge keeps its meaning ----

  /** The same row: same id, source, kind and effective target name, whether bound or not. */
  ghost predicate SameEdge(t: Tables, e: EdgeRow, u: Tables, r: EdgeRow) {
    && r.id == e.id && r.source == e.source && r.kind == e.kind
    && NameOf(t, e.source) == NameOf(u, r.source)
    && Effective(t, e) == Effective(u, r)
  }

  /** Every row of `u` whose id was handed out before `t` continues a row of `t`. */
  ghost predicate Continues(t: Tables, u: Tables) {
    && t.nextEdge <= u.nextEdge
    && forall r :: r in u.edges && r.id < t.nextEdge ==> exists e :: e in t.edges && SameEdge(t, e, u, r)
  }

  lemma DeleteContinues(t: Tables, file: string)
    requires Integrity(t)
    ensures Continues(t, DeleteFileData(t, file))
  {
    hide DeleteFileData;
    var u := DeleteFileData(t, file);
    var ids := SymbolsOf(t, file);
    var kept := Filter(t.edges, SourceOutside(ids));
    DeletedShape(t, file);
    forall r | r in u.edges
      ensures exists e :: e in t.edges && SameEdge(t, e, u, r)
    {
      var i :| 0 <= i < |u.edges| && u.edges[i] == r;
      assert kept[i] in kept && EdgeOk(t.symbols, kept[i]);
      assert r == Unbind(t.symbols, ids)(kept[i]);
      assert SameEdge(t, kept[i], u, r);
    }
  }

  lemma InsertContinues(t: Tables, file: string, p: ParseResult)
    requires Integrity(t) && Vacant(t, file) && WellFormed(p, file)
    ensures Continues(t, InsertParse(t, file, p))
  {
    hide InsertParse, RemapEdges, IdMap, NewSymbols;
    var u := InsertParse(t, file, p);
    InsertedShape(t, file, p);
    forall r | r in u.edges && r.id < t.nextEdge
      ensures exists e :: e in t.edges && SameEdge(t, e, u, r)
    {
      assert r in t.edges && EdgeOk(t.symbols, r);
      assert SameEdge(t, r, u, r);
    }
  }

  lemma ResolveContinues(t: Tables, u: Tables)
    requires Integrity(t) && Resolved(t, u)
    ensures Continues(t, u)
  {
    forall r | r in u.edges
      ensures exists e :: e in t.edges && SameEdge(t, e, u, r)
    {
      var i :| 0 <= i < |u.edges| && u.edges[i] == r;
      assert ResolvedRow(t, t.edges[i], r) && EdgeOk(t.symbols, t.edges[i]);
      assert SameEdge(t, t.edges[i], u, r);
    }
  }

  lemma ContinuesTransitive(a: Tables, b: Tables, c: Tables)
    requires Continues(a, b) && Continues(b, c)
    ensures Continues(a, c)
  {
    forall r | r in c.edges && r.id < a.nextEdge
      ensures exists e :: e in a.edges && SameEdge(a, e, c, r)
    {
      var m :| m in b.edges && SameEdge(b, m, c, r);
      var e :| e in a.edges && SameEdge(a, e, b, m);
      assert SameEdge(a, e, c, r);
    }
  }

  lemma UpdateContinues(t: Tables, c: Change, u: Tables)
    requires Integrity(t) && Updated(t, c, u)
    ensures Integrity(u) && Continues(t, u)
  {
    hide DeleteFileData, InsertParse, Integrity, Vacant, Continues, Resolved;
    var d := DeleteFileData(t, c.file);
    DeleteKeepsIntegrity(t, c.file);
    DeleteContinues(t, c.file);
    match Outcome(c)
    case None =>
    case Some(p) =>
      var i := InsertParse(d, c.file, p);
      DeletedIsVacant(t, c.file);
      InsertKeepsIntegrity(d, c.file, p);
      InsertContinues(d, c.file, p);
      ResolveKeepsIntegrity(i, u);
      ResolveContinues(i, u);
      ContinuesTransitive(t, d, i);
      ContinuesTransitive(t, i, u);
  }

  lemma {:induction false} RunContinues(ts: seq<Tables>, changes: seq<Change>, i: nat, j: nat)
    requires Run(ts, changes) && i <= j <= |changes| && Integrity(ts[i])
    ensures Integrity(ts[j]) && Continues(ts[i], ts[j])
    decreases j
  {
    hide Integrity, Updated;
    if i == j {
      assert forall r :: r in ts[i].edges ==> SameEdge(ts[i], r, ts[i], r);
    } else {
      hide Continues;
      RunContinues(ts, changes, i, j - 1);
      UpdateContinues(ts[j - 1], changes[j - 1], ts[j]);
      ContinuesTransitive(ts[i], ts[j - 1], ts[j]);
    }
  }

  /**
   * However often an edge is unbound and bound again during a run, it keeps its source, its kind
   * and the target name it was written with.
   */
  lemma EdgeKeepsMeaning(ts: seq<Tables>, changes: seq<Change>, i: nat, j: nat, e: EdgeRow, r: EdgeRow)
    requires Run(ts, changes) && i <= j <= |changes| && Integrity(ts[i])
    requires e in ts[i].edges && r in ts[j].edges && e.id == r.id
    ensures SameEdge(ts[i], e, ts[j], r)
  {
    hide Updated;
    RunContinues(ts, changes, i, j);
    var o :| o in ts[i].edges && SameEdge(ts[i], o, ts[j], r);
    var edges := ts[i].edges;
    var k :| 0 <= k < |edges| && edges[k] == e;
    var l :| 0 <= l < |edges| && edges[l] == o;
    assert k == l;
  }

  // ---- When a removal leaves names resolvable ----

  /** The edges a removal of `file` unbinds: owned by another file, bound to a symbol of this one. */
  ghost predicate BoundInto(t: Tables, file: string, e: EdgeRow) {
    && e.source !in SymbolsOf(t, file)
    && e.target.Some? && e.target.value in SymbolsOf(t, file)
  }

  /** Some symbol of another file has the name. */
  predicate KnownElsewhere(t: Tables, file: string, name: string) {
    exists id :: id in t.symbols && t.symbols[id].file != file && t.symbols[id].name == name
  }

  /** What the edge waits for once `file` is gone, if it survives: its own name or the one it loses. */
  function WaitsFor(t: Tables, file: string, e: EdgeRow): Option<string> {
    if e.source in SymbolsOf(t, file) then None
    else if Unresolved(e) then e.name
    else if e.target.Some? && e.target.value in SymbolsOf(t, file) then Some(t.symbols[e.target.value].name)
    else None
  }

  ghost predicate NoneWaits(t: Tables, file: string) {
    forall e :: e in t.edges && WaitsFor(t, file, e).Some? ==> !KnownElsewhere(t, file, WaitsFor(t, file, e).value)
  }

  /**
   * A removal, or an update whose file no longer parses, does not resolve again. It leaves everything
   * resolved exactly when no surviving edge, whether waiting before or unbound now, is about a name
   * that another file defines.
   */
  lemma RemovalCompleteIff(t: Tables, file: string)
    requires Integrity(t)
    ensures Complete(DeleteFileData(t, file)) <==> NoneWaits(t, file)
  {
    hide DeleteFileData, WaitsFor, KnownElsewhere;
    var u := DeleteFileData(t, file);
    var ids := SymbolsOf(t, file);
    var kept := Filter(t.edges, SourceOutside(ids));
    DeletedShape(t, file);
    forall n ensures NameKnown(u, n) <==> KnownElsewhere(t, file, n) { KnownAfter(t, file, n); }
    hide NameKnown;
    forall i | 0 <= i < |kept|
      ensures kept[i] in t.edges && u.edges[i] in u.edges
      ensures WaitsFor(t, file, kept[i]) == if Unresolved(u.edges[i]) then u.edges[i].name else None
    {
      assert kept[i] in kept;
      WaitsAfter(t, file, kept[i]);
    }
    forall e | e in t.edges && WaitsFor(t, file, e).Some?
      ensures exists i :: 0 <= i < |kept| && kept[i] == e
    {
      WaitsAfter(t, file, e);
      assert e in kept;
    }
    if NoneWaits(t, file) {
      forall i | 0 <= i < |u.edges| && Unresolved(u.edges[i])
        ensures !NameKnown(u, u.edges[i].name.value)
      {
        assert WaitsFor(t, file, kept[i]).Some?;
      }
    } else {
      var e :| e in t.edges && WaitsFor(t, file, e).Some? && KnownElsewhere(t, file, WaitsFor(t, file, e).value);
      var i :| 0 <= i < |kept| && kept[i] == e;
      assert Unresolved(u.edges[i]) && NameKnown(u, u.edges[i].name.value);
    }
  }

  lemma KnownAfter(t: Tables, file: string, name: string)
    requires Sound(t)
    ensures NameKnown(DeleteFileData(t, file), name) <==> KnownElsewhere(t, file, name)
  {
    hide DeleteFileData;
    DeletedShape(t, file);
    var u := DeleteFileData(t, file);
    assert forall id :: id in u.symbols <==> id in t.symbols && t.symbols[id].file != file;
    assert forall id :: id in u.symbols ==> u.symbols[id] == t.symbols[id];
  }

  lemma WaitsAfter(t: Tables, file: string, e: EdgeRow)
    requires EdgeOk(t.symbols, e)
    ensures var r := Unbind(t.symbols, SymbolsOf(t, file))(e);
            WaitsFor(t, file, e) == if e.source !in SymbolsOf(t, file) && Unresolved(r) then r.name else None
  {
  }

  // ---- When deleting or replacing symbols leaves dangling edges ----

  /** Edges that would keep their row but lose their target, with no name to find it again. */
  ghost predicate NoneStranded(t: Tables, dead: set<nat>) {
    forall e :: e in t.edges && e.source !in dead ==> !(e.target.Some? && e.target.value in dead)
  }

  /** Deleting symbol rows alone keeps the edges in order exactly when no surviving edge is bound to them. */
  lemma DeleteSymbolsIff(t: Tables, dead: set<nat>)
    requires Integrity(t)
    ensures Integrity(DeleteSymbols(t, dead)) <==> NoneStranded(t, dead)
  {
    var u := DeleteSymbols(t, dead);
    var kept := Filter(t.edges, SourceOutside(dead));
    DeleteSymbolsKeepsSound(t, dead);
    hide Sound;
    forall i | 0 <= i < |kept|
      ensures EdgeOk(u.symbols, u.edges[i]) <==> !(kept[i].target.Some? && kept[i].target.value in dead)
      ensures u.edges[i] in u.edges
    {
      assert kept[i] in kept && EdgeOk(t.symbols, kept[i]);
      assert u.edges[i] == Detach(dead)(kept[i]);
    }
    forall e | e in t.edges && e.source !in dead
      ensures exists i :: 0 <= i < |kept| && kept[i] == e
    {
      assert e in kept;
    }
    if NoneStranded(t, dead) {
      forall i | 0 <= i < |u.edges|
        ensures EdgeOk(u.symbols, u.edges[i])
      {
        assert kept[i] in kept;
      }
    }
  }

  /** `delete_by_file`, which skips the unbinding step, is safe only under that condition. */
  lemma DeleteByFileIff(t: Tables, file: string)
    requires Integrity(t)
    ensures Integrity(DeleteByFile(t, file)) <==> forall e :: e in t.edges ==> !BoundInto(t, file, e)
  {
    DeleteSymbolsIff(t, SymbolsOf(t, file));
  }

  lemma KeptRows(t: Tables, dead: set<nat>)
    requires Integrity(t)
    ensures forall e :: e in DeleteSymbols(t, dead).edges ==>
                          e.source < t.nextSymbol && (e.target.Some? ==> e.target.value < t.nextSymbol)
  {
    var kept := Filter(t.edges, SourceOutside(dead));
    forall i | 0 <= i < |kept|
      ensures var e := Detach(dead)(kept[i]);
              e.source < t.nextSymbol && (e.target.Some? ==> e.target.value < t.nextSymbol)
    {
      assert kept[i] in kept && EdgeOk(t.symbols, kept[i]);
    }
  }

  /**
   * Inserting one symbol that is already there replaces its row. The index stays in order exactly
   * when no edge from another symbol was bound to the replaced row. What a whole build of a filled
   * store does, where a later replacement may take such an edge away again, is in module Rebuilds.
   */
  lemma ReplaceIff(t: Tables, s: Symbol)
    requires Integrity(t)
    ensures Integrity(InsertSymbol(t, s)) <==> NoneStranded(t, SameKey(t, s))
  {
    var dead := SameKey(t, s);
    var d, u := DeleteSymbols(t, dead), InsertSymbol(t, s);
    DeleteSymbolsIff(t, dead);
    KeptRows(t, dead);
    DeleteSymbolsKeepsSound(t, dead);
    InsertSymbolKeepsSound(t, s);
    hide DeleteSymbols, NoneStranded, SameKey, Sound;
    assert forall e :: e in d.edges ==> (EdgeOk(u.symbols, e) <==> EdgeOk(d.symbols, e));
  }
}
