/**
 * A full build of a store that is already filled (crates/visp-codegraph/src/index.rs,
 * crates/visp-codegraph/src/store.rs): nothing is cleared first, so every symbol of a parsed file
 * replaces the row of the same file and name. The main result says exactly when the edges survive.
 */
module Rebuilds {
  import opened Collections
  import opened Graph
  import opened Tables
  import opened IndexSpec
  import opened IndexRuns
  import opened IndexEdges

  predicate NamedIn(ss: seq<Symbol>, name: string) {
    exists s :: s in ss && s.name == name
  }

  /** The rows of `file` that the insertion of `ss` replaces. */
  function Replaced(t: Tables, file: string, ss: seq<Symbol>): set<nat> {
    set id | id in t.symbols && t.symbols[id].file == file && NamedIn(ss, t.symbols[id].name)
  }

  // ---- Replacing the symbols of one file ----

  /** Deleting in two steps is deleting at once. */
  lemma DeleteTwice(t: Tables, a: set<nat>, b: set<nat>)
    ensures DeleteSymbols(DeleteSymbols(t, a), b) == DeleteSymbols(t, a + b)
  {
    DeleteEdgesTwice(t.edges, a, b);
    FilterFilter(t.exports, SymbolOutside(a), SymbolOutside(a + b));
    FilterCong(Filter(t.exports, SymbolOutside(a)), SymbolOutside(b), SymbolOutside(a + b));
    assert t.symbols - a - b == t.symbols - (a + b);
  }

  lemma DeleteEdgesTwice(edges: seq<EdgeRow>, a: set<nat>, b: set<nat>)
    ensures Map(Filter(Map(Filter(edges, SourceOutside(a)), Detach(a)), SourceOutside(b)), Detach(b))
            == Map(Filter(edges, SourceOutside(a + b)), Detach(a + b))
  {
    var kept := Filter(edges, SourceOutside(a));
    FilterMap(kept, Detach(a), SourceOutside(b), SourceOutside(b));
    KeptTwice(edges, a, b);
    hide SourceOutside, Filter;
  }

  lemma KeptTwice(edges: seq<EdgeRow>, a: set<nat>, b: set<nat>)
    ensures Filter(Filter(edges, SourceOutside(a)), SourceOutside(b)) == Filter(edges, SourceOutside(a + b))
  {
    FilterFilter(edges, SourceOutside(a), SourceOutside(a + b));
    FilterCong(Filter(edges, SourceOutside(a)), SourceOutside(b), SourceOutside(a + b));
  }

  lemma NamedInStep(ss: seq<Symbol>, name: string)
    requires ss != []
    ensures NamedIn(ss, name) <==> NamedIn(ss[..|ss| - 1], name) || ss[|ss| - 1].name == name
  {
    var init, last := ss[..|ss| - 1], ss[|ss| - 1];
    assert forall s :: s in ss <==> s in init || s == last;
  }

  lemma ReplacedStep(t: Tables, file: string, ss: seq<Symbol>)
    requires ss != []
    ensures Replaced(t, file, ss) == Replaced(t, file, ss[..|ss| - 1]) + Replaced(t, file, [ss[|ss| - 1]])
  {
    var last := ss[|ss| - 1];
    forall id | id in t.symbols
      ensures NamedIn(ss, t.symbols[id].name)
        <==> NamedIn(ss[..|ss| - 1], t.symbols[id].name) || NamedIn([last], t.symbols[id].name)
    {
      NamedInStep(ss, t.symbols[id].name);
      NamedInStep([last], t.symbols[id].name);
      assert [last][..0] == [];
    }
  }

  /** A symbol replaces the row of its own key only; what was replaced or added for its predecessors stays. */
  lemma LastReplaces(t: Tables, before: Tables, file: string, init: seq<Symbol>, last: Symbol)
    requires forall id :: id in t.symbols ==> id < t.nextSymbol
    requires last.file == file && !NamedIn(init, last.name)
    requires before.symbols == (t.symbols - Replaced(t, file, init)) + NewSymbols(t.nextSymbol, init)
    ensures SameKey(before, last) == Replaced(t, file, [last])
  {
    hide NewSymbols;
    forall id | id in before.symbols && id !in t.symbols
      ensures before.symbols[id].name != last.name
    {
      assert init[id - t.nextSymbol] in init;
    }
    forall id | id in t.symbols
      ensures NamedIn([last], t.symbols[id].name) <==> t.symbols[id].name == last.name
      ensures id in before.symbols ==> before.symbols[id] == t.symbols[id]
    {
      NamedInStep([last], t.symbols[id].name);
      assert [last][..0] == [];
    }
  }

  lemma LastIsNew(file: string, ss: seq<Symbol>)
    requires NewToFile(ss, file) && ss != []
    ensures NewToFile(ss[..|ss| - 1], file) && ss[|ss| - 1].file == file && !NamedIn(ss[..|ss| - 1], ss[|ss| - 1].name)
  {
    assert ss[|ss| - 1] in ss;
  }

  lemma DeleteOld(t: Tables, ss: seq<Symbol>, dead: set<nat>)
    requires forall id :: id in dead ==> id < t.nextSymbol
    ensures DeleteSymbols(WithSymbols(t, ss), dead) == WithSymbols(DeleteSymbols(t, dead), ss)
  {
    assert (t.symbols + NewSymbols(t.nextSymbol, ss)) - dead == (t.symbols - dead) + NewSymbols(t.nextSymbol, ss);
  }

  /** Closed form of inserting a file's symbols over what is there. */
  lemma {:induction false} InsertSymbolsReplaces(t: Tables, file: string, ss: seq<Symbol>)
    requires SymbolsOk(t) && NewToFile(ss, file)
    ensures InsertSymbols(t, ss) == WithSymbols(DeleteSymbols(t, Replaced(t, file, ss)), ss)
  {
    if ss == [] {
      assert Replaced(t, file, ss) == {};
      DeleteNothing(t);
      assert t.symbols + map[] == t.symbols;
    } else {
      hide *;
      var init, last := ss[..|ss| - 1], ss[|ss| - 1];
      var dead, more := Replaced(t, file, init), Replaced(t, file, [last]);
      var cleared := DeleteSymbols(t, dead);
      LastIsNew(file, ss);
      InsertSymbolsReplaces(t, file, init);
      InsertSymbolsLast(t, ss);
      ReplacedStep(t, file, ss);
      IdsBelowNext(t);
      ClearedSymbols(t, dead, init);
      LastReplaces(t, WithSymbols(cleared, init), file, init, last);
      ReplacedOld(t, file, [last]);
      DeleteOld(cleared, init, more);
      DeleteTwice(t, dead, more);
      PushLast(WithSymbols(cleared, init), DeleteSymbols(t, Replaced(t, file, ss)), ss, more);
    }
  }

  lemma InsertSymbolsLast(t: Tables, ss: seq<Symbol>)
    requires ss != []
    ensures InsertSymbols(t, ss) == InsertSymbol(InsertSymbols(t, ss[..|ss| - 1]), ss[|ss| - 1])
  {
  }

  lemma ClearedSymbols(t: Tables, dead: set<nat>, ss: seq<Symbol>)
    ensures WithSymbols(DeleteSymbols(t, dead), ss).symbols == (t.symbols - dead) + NewSymbols(t.nextSymbol, ss)
    ensures DeleteSymbols(t, dead).nextSymbol == t.nextSymbol
  {
  }

  lemma PushLast(before: Tables, cleared: Tables, ss: seq<Symbol>, dead: set<nat>)
    requires ss != [] && SameKey(before, ss[|ss| - 1]) == dead
    requires DeleteSymbols(before, dead) == WithSymbols(cleared, ss[..|ss| - 1])
    ensures InsertSymbol(before, ss[|ss| - 1]) == WithSymbols(cleared, ss)
  {
    hide DeleteSymbols, SameKey;
    NewSymbolsStep(cleared.symbols, cleared.nextSymbol, ss);
  }

  lemma IdsBelowNext(t: Tables)
    requires SymbolsOk(t)
    ensures forall id :: id in t.symbols ==> id < t.nextSymbol
  {
  }

  lemma ReplacedOld(t: Tables, file: string, ss: seq<Symbol>)
    ensures Replaced(t, file, ss) <= t.symbols.Keys
  {
  }

  // ---- A whole build ----

  predicate Declares(disk: Disk, file: string, name: string) {
    file in disk && match Parse(file, disk[file]) case Some(r) => NamedIn(r.symbols, name) case None => false
  }

  /** The symbols whose file and name occur in what is now parsed: the build gives them new rows. */
  function Renewed(t: Tables, files: seq<string>, disk: Disk): set<nat> {
    set id | id in t.symbols && t.symbols[id].file in files && Declares(disk, t.symbols[id].file, t.symbols[id].name)
  }

  /** An edge a build has added: from a new row, waiting under a name. */
  ghost predicate NewEdge(t: Tables, u: Tables, e: EdgeRow) {
    e.source >= t.nextSymbol && e.source in u.symbols && e.target.None? && e.name.Some?
  }

  /** `u` is `t` without the symbols `dead`, with new symbols for `files` and new edges from them. */
  ghost predicate Carried(t: Tables, u: Tables, dead: set<nat>, files: seq<string>) {
    CarriedSymbols(t, u, dead, files) && CarriedEdges(t, u, dead)
  }

  ghost predicate CarriedSymbols(t: Tables, u: Tables, dead: set<nat>, files: seq<string>) {
    && t.nextSymbol <= u.nextSymbol
    && (forall id :: id in t.symbols && id !in dead ==> id in u.symbols && u.symbols[id] == t.symbols[id])
    && (forall id :: id in u.symbols ==>
          (id in t.symbols && id !in dead) || (id >= t.nextSymbol && u.symbols[id].file in files))
  }

  ghost predicate CarriedEdges(t: Tables, u: Tables, dead: set<nat>) {
    var kept := DeleteSymbols(t, dead).edges;
    && kept <= u.edges
    && (forall i :: |kept| <= i < |u.edges| ==> NewEdge(t, u, u.edges[i]))
  }

  /** Closed form of `InsertParse` over what is there. */
  lemma InsertParseReplaces(t: Tables, file: string, r: ParseResult)
    requires Sound(t) && WellFormed(r, file)
    ensures var u, cleared := InsertParse(t, file, r), DeleteSymbols(t, Replaced(t, file, r.symbols));
            && u.symbols == cleared.symbols + NewSymbols(t.nextSymbol, r.symbols)
            && u.nextSymbol == t.nextSymbol + |r.symbols|
            && u.edges == cleared.edges + EdgeRows(t.nextEdge, RemapEdges(r.edges, IdMap(t.nextSymbol, |r.symbols|)))
  {
    assert NewToFile(r.symbols, file);
    hide NewSymbols, RemapEdges, EdgeRows, IdMap, InsertSymbols, Replaced, Filter, Map;
    InsertSymbolsReplaces(t, file, r.symbols);
  }

  lemma RemappedRow(t: Tables, file: string, r: ParseResult, i: nat)
    requires WellFormed(r, file)
    requires i < |RemapEdges(r.edges, IdMap(t.nextSymbol, |r.symbols|))|
    ensures var e := EdgeRows(t.nextEdge, RemapEdges(r.edges, IdMap(t.nextSymbol, |r.symbols|)))[i];
            t.nextSymbol <= e.source < t.nextSymbol + |r.symbols| && e.target.None? && e.name.Some?
  {
    hide RemapEdges, IdMap;
    RemappedEdge(r, file, t.nextSymbol, RemapEdges(r.edges, IdMap(t.nextSymbol, |r.symbols|))[i]);
  }

  /** The rows that one more file replaces are rows of before the build. */
  lemma RenewedStep(t: Tables, u: Tables, files: seq<string>, disk: Disk, r: ParseResult)
    requires files != [] && files[|files| - 1] !in files[..|files| - 1]
    requires files[|files| - 1] in disk && Parse(files[|files| - 1], disk[files[|files| - 1]]) == Some(r)
    requires Carried(t, u, Renewed(t, files[..|files| - 1], disk), files[..|files| - 1])
    ensures var file, before := files[|files| - 1], Renewed(t, files[..|files| - 1], disk);
            Replaced(u, file, r.symbols) == Replaced(t, file, r.symbols)
            && Renewed(t, files, disk) == before + Replaced(t, file, r.symbols)
  {
    hide NamedIn, DeleteSymbols;
    assert forall f :: f in files <==> f in files[..|files| - 1] || f == files[|files| - 1];
  }

  /** New edges are not touched by later deletions of kept symbols. */
  lemma DeleteCarried(t: Tables, edges: seq<EdgeRow>, extra: seq<EdgeRow>, dead: set<nat>)
    requires forall i :: 0 <= i < |extra| ==> extra[i].source >= t.nextSymbol && extra[i].target.None?
    requires forall id :: id in dead ==> id < t.nextSymbol
    ensures Map(Filter(edges + extra, SourceOutside(dead)), Detach(dead))
            == Map(Filter(edges, SourceOutside(dead)), Detach(dead)) + extra
  {
    FilterConcat(edges, extra, SourceOutside(dead));
    FilterAll(extra, SourceOutside(dead));
    MapConcat(Filter(edges, SourceOutside(dead)), extra, Detach(dead));
    MapIdentity(extra, Detach(dead));
  }

  /** The edges after one more file. */
  lemma EdgesAfterOneMore(t: Tables, u: Tables, files: seq<string>, dead: set<nat>, more: set<nat>)
    requires Carried(t, u, dead, files) && forall id :: id in more ==> id < t.nextSymbol
    ensures var kept, now := DeleteSymbols(t, dead).edges, DeleteSymbols(t, dead + more).edges;
            |kept| <= |u.edges| && DeleteSymbols(u, more).edges == now + u.edges[|kept|..]
  {
    var kept := DeleteSymbols(t, dead).edges;
    var extra := u.edges[|kept|..];
    assert u.edges == kept + extra;
    forall i | 0 <= i < |extra|
      ensures NewEdge(t, u, extra[i])
    {
      assert extra[i] == u.edges[|kept| + i];
    }
    DeleteCarried(t, kept, extra, more);
    DeleteEdgesTwice(t.edges, dead, more);
  }

  lemma SymbolsAfterOneMore(
    t: Tables, u: Tables, v: Tables, files: seq<string>, dead: set<nat>, more: set<nat>, file: string,
    added: map<nat, Symbol>)
    requires CarriedSymbols(t, u, dead, files)
    requires more <= t.symbols.Keys && forall id :: id in t.symbols ==> id < t.nextSymbol
    requires forall id :: id in u.symbols ==> id < u.nextSymbol
    requires forall id :: id in added ==> u.nextSymbol <= id && added[id].file == file
    requires v.symbols == (u.symbols - more) + added && v.nextSymbol >= u.nextSymbol
    ensures CarriedSymbols(t, v, dead + more, files + [file])
    ensures forall id :: id in u.symbols && id >= t.nextSymbol ==> id in v.symbols
    ensures added.Keys <= v.symbols.Keys
  {
    forall id | id in v.symbols
      ensures (id in t.symbols && id !in dead + more) || (id >= t.nextSymbol && v.symbols[id].file in files + [file])
    {
      assert id in added || id in u.symbols;
    }
  }

  lemma AddedRows(first: nat, ss: seq<Symbol>, file: string)
    requires forall s :: s in ss ==> s.file == file
    ensures forall id :: id in NewSymbols(first, ss) ==> first <= id && NewSymbols(first, ss)[id].file == file
    ensures forall id :: id in NewSymbols(first, ss) <==> first <= id < first + |ss|
  {
    hide NewSymbols;
    forall id | id in NewSymbols(first, ss)
      ensures NewSymbols(first, ss)[id].file == file
    {
      assert ss[id - first] in ss;
    }
  }

  lemma CarriedStep(t: Tables, u: Tables, files: seq<string>, dead: set<nat>, file: string, r: ParseResult)
    requires Sound(t) && Sound(u) && WellFormed(r, file)
    requires Carried(t, u, dead, files) && Replaced(u, file, r.symbols) == Replaced(t, file, r.symbols)
    ensures Carried(t, InsertParse(u, file, r), dead + Replaced(t, file, r.symbols), files + [file])
  {
    hide *;
    var more := Replaced(t, file, r.symbols);
    var v := InsertParse(u, file, r);
    InsertParseReplaces(u, file, r);
    SoundIds(t);
    SoundIds(u);
    ReplacedOld(t, file, r.symbols);
    EdgesAfterOneMore(t, u, files, dead, more);
    DeletedSymbols(u, more);
    OwnFile(r, file);
    AddedRows(u.nextSymbol, r.symbols, file);
    CarriedParts(t, u, dead, files);
    SymbolsAfterOneMore(t, u, v, files, dead, more, file, NewSymbols(u.nextSymbol, r.symbols));
    RowsAfterOneMore(t, u, v, files, dead, file, r);
    BothCarried(t, v, dead + more, files + [file]);
  }

  lemma SoundIds(t: Tables)
    requires Sound(t)
    ensures forall id :: id in t.symbols ==> id < t.nextSymbol
  {
  }

  lemma DeletedSymbols(t: Tables, dead: set<nat>)
    ensures DeleteSymbols(t, dead).symbols == t.symbols - dead
  {
  }

  lemma OwnFile(r: ParseResult, file: string)
    requires WellFormed(r, file)
    ensures forall s :: s in r.symbols ==> s.file == file
  {
  }

  lemma CarriedParts(t: Tables, u: Tables, dead: set<nat>, files: seq<string>)
    requires Carried(t, u, dead, files)
    ensures CarriedSymbols(t, u, dead, files) && CarriedEdges(t, u, dead)
  {
  }

  lemma BothCarried(t: Tables, u: Tables, dead: set<nat>, files: seq<string>)
    requires CarriedSymbols(t, u, dead, files) && CarriedEdges(t, u, dead)
    ensures Carried(t, u, dead, files)
  {
  }

  lemma RowsAfterOneMore(
    t: Tables, u: Tables, v: Tables, files: seq<string>, dead: set<nat>, file: string, r: ParseResult)
    requires Carried(t, u, dead, files) && WellFormed(r, file)
    requires forall id :: id in u.symbols && id >= t.nextSymbol ==> id in v.symbols
    requires forall id :: u.nextSymbol <= id < u.nextSymbol + |r.symbols| ==> id in v.symbols
    requires var kept, more := DeleteSymbols(t, dead).edges, Replaced(t, file, r.symbols);
             && |kept| <= |u.edges|
             && v.edges == DeleteSymbols(t, dead + more).edges + u.edges[|kept|..]
                           + EdgeRows(u.nextEdge, RemapEdges(r.edges, IdMap(u.nextSymbol, |r.symbols|)))
    ensures CarriedEdges(t, v, dead + Replaced(t, file, r.symbols))
  {
    hide DeleteSymbols, RemapEdges, EdgeRows, IdMap, Replaced, WellFormed;
    var kept, now := DeleteSymbols(t, dead).edges, DeleteSymbols(t, dead + Replaced(t, file, r.symbols)).edges;
    var rows := EdgeRows(u.nextEdge, RemapEdges(r.edges, IdMap(u.nextSymbol, |r.symbols|)));
    forall i | |now| <= i < |v.edges|
      ensures NewEdge(t, v, v.edges[i])
    {
      if i < |now| + |u.edges| - |kept| {
        assert NewEdge(t, u, u.edges[|kept| + i - |now|]);
      } else {
        RemappedRow(u, file, r, i - |now| - (|u.edges| - |kept|));
      }
    }
  }

  /** What a build does to a filled store, file after file. */
  lemma {:induction false} BuildCarries(t: Tables, files: seq<string>, disk: Disk)
    requires Sound(t) && (forall f :: f in files ==> f in disk)
    requires forall i, j :: 0 <= i < j < |files| ==> files[i] != files[j]
    ensures Sound(InsertAll(t, files, disk)) && Carried(t, InsertAll(t, files, disk), Renewed(t, files, disk), files)
  {
    if files == [] {
      assert Renewed(t, files, disk) == {};
      NothingCarried(t);
    } else {
      var init, file := files[..|files| - 1], files[|files| - 1];
      var u := InsertAll(t, init, disk);
      BuildCarries(t, init, disk);
      assert files == init + [file];
      match Parse(file, disk[file])
      case None =>
        NotRenewed(t, files, disk);
        CarriedMore(t, u, Renewed(t, init, disk), init, file);
      case Some(r) =>
        hide InsertParse, Carried, Sound, Renewed, Replaced, Parse;
        RenewedStep(t, u, files, disk, r);
        CarriedStep(t, u, init, Renewed(t, init, disk), file, r);
        InsertParseKeepsSound(u, file, r);
    }
  }

  lemma NothingCarried(t: Tables)
    requires Sound(t)
    ensures Carried(t, t, {}, [])
  {
    DeleteNothing(t);
  }

  lemma NotRenewed(t: Tables, files: seq<string>, disk: Disk)
    requires files != [] && files[|files| - 1] in disk && Parse(files[|files| - 1], disk[files[|files| - 1]]).None?
    ensures Renewed(t, files, disk) == Renewed(t, files[..|files| - 1], disk)
  {
    assert forall f :: f in files <==> f in files[..|files| - 1] || f == files[|files| - 1];
  }

  lemma CarriedMore(t: Tables, u: Tables, dead: set<nat>, files: seq<string>, file: string)
    requires Carried(t, u, dead, files)
    ensures Carried(t, u, dead, files + [file])
  {
  }

  /** Carrying keeps the edges in order exactly when none of the old ones is stranded. */
  lemma CarriedIff(t: Tables, u: Tables, dead: set<nat>, files: seq<string>)
    requires Integrity(t) && Sound(u) && Carried(t, u, dead, files)
    ensures Integrity(u) <==> NoneStranded(t, dead)
  {
    var d := DeleteSymbols(t, dead);
    var kept := d.edges;
    DeleteSymbolsIff(t, dead);
    DeletedSymbols(t, dead);
    DeleteSymbolsKeepsSound(t, dead);
    KeptRows(t, dead);
    hide DeleteSymbols, NoneStranded, Sound;
    forall i | 0 <= i < |u.edges|
      ensures EdgeOk(u.symbols, u.edges[i]) <==> i >= |kept| || EdgeOk(d.symbols, kept[i])
      ensures i < |kept| ==> u.edges[i] == kept[i] && kept[i] in d.edges && kept[i] in u.edges
    {
      if i >= |kept| {
        assert NewEdge(t, u, u.edges[i]);
      } else {
        assert kept[i] in d.edges;
        assert forall id: nat :: id < t.nextSymbol ==> (id in u.symbols <==> id in d.symbols);
      }
    }
  }

  lemma ResolveIntegrityIff(t: Tables, u: Tables)
    requires Sound(t) && Resolved(t, u)
    ensures Integrity(u) <==> Integrity(t)
  {
    forall i | 0 <= i < |u.edges|
      ensures EdgeOk(u.symbols, u.edges[i]) <==> EdgeOk(t.symbols, t.edges[i])
      ensures u.edges[i].id == t.edges[i].id && u.edges[i] in u.edges && t.edges[i] in t.edges
    {
      assert ResolvedRow(t, t.edges[i], u.edges[i]);
    }
  }

  /**
   * A full build of a filled store keeps every edge in order exactly when no edge from a symbol that
   * is not parsed again is bound to one that is.
   */
  lemma RebuildIff(t: Tables, files: seq<string>, disk: Disk, u: Tables)
    requires Integrity(t) && Lists(files, disk) && Built(t, files, disk, u)
    ensures Integrity(u) <==>
            forall e :: e in t.edges && e.target.Some? && e.target.value in Renewed(t, files, disk)
                        ==> e.source in Renewed(t, files, disk)
    ensures Integrity(u) ==> Complete(u)
  {
    BuildCarries(t, files, disk);
    var built := InsertAll(t, files, disk);
    hide Sound, Carried, Renewed, InsertAll;
    CarriedIff(t, built, Renewed(t, files, disk), files);
    ResolveIntegrityIff(built, u);
    if Integrity(u) {
      ResolveCompletes(built, u);
    }
  }

  /** Building an unchanged project once more strands nothing. */
  lemma RebuildOfUnchanged(t: Tables, files: seq<string>, disk: Disk, u: Tables)
    requires Represents(t, IndexOf(disk)) && Lists(files, disk) && Built(t, files, disk, u)
    ensures Integrity(u) && Complete(u)
  {
    RebuildIff(t, files, disk, u);
    forall e | e in t.edges
      ensures e.source in Renewed(t, files, disk)
    {
      assert EdgeOk(t.symbols, e);
      ShownIsParsed(t, disk, e.source);
    }
  }

  lemma ShownIsParsed(t: Tables, disk: Disk, id: nat)
    requires Represents(t, IndexOf(disk)) && id in t.symbols
    ensures t.symbols[id].file in disk && Declares(disk, t.symbols[id].file, t.symbols[id].name)
  {
    var file := t.symbols[id].file;
    assert View(t, file) == Shows(IndexOf(disk), file);
    assert Anonymous(t.symbols[id]) in SymbolsIn(t, file);
    assert file in IndexOf(disk);
    var r := IndexOf(disk)[file];
    assert SymbolsIn(t, file) == set s | s in r.symbols :: Anonymous(s);
    var s :| s in r.symbols && Anonymous(s) == Anonymous(t.symbols[id]);
  }
}
