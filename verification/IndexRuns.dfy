/**
 * Runs of the indexer: one full build of an empty store, then any sequence of file updates
 * (crates/visp-codegraph/src/index.rs). The main result is that the tables then show, file by
 * file, what a full rebuild of the current sources would show.
 */
module IndexRuns {
  import opened Collections
  import opened Graph
  import opened Tables
  import opened IndexSpec
  import opened Languages
  import WalkSpec

  // ---- Resolving names to symbols ----

  /** An edge waiting under a known name is bound to some symbol of that name, any other is left alone. */
  ghost predicate ResolvedRow(t: Tables, e: EdgeRow, r: EdgeRow) {
    if Unresolved(e) && NameKnown(t, e.name.value) then
      && r.target.Some? && r.target.value in t.symbols
      && t.symbols[r.target.value].name == e.name.value
      && r == e.(target := r.target, name := None)
    else r == e
  }

  /** Which symbol of the name is taken is not fixed: the query has no ORDER BY. */
  ghost predicate Resolved(t: Tables, u: Tables) {
    && u == t.(edges := u.edges)
    && |u.edges| == |t.edges|
    && forall i :: 0 <= i < |t.edges| ==> ResolvedRow(t, t.edges[i], u.edges[i])
  }

  lemma ResolveKeepsIntegrity(t: Tables, u: Tables)
    requires Integrity(t) && Resolved(t, u)
    ensures Integrity(u)
  {
    forall i | 0 <= i < |u.edges|
      ensures EdgeOk(u.symbols, u.edges[i]) && u.edges[i].id == t.edges[i].id
    {
      assert ResolvedRow(t, t.edges[i], u.edges[i]);
      assert EdgeOk(t.symbols, t.edges[i]);
    }
  }

  lemma ResolveCompletes(t: Tables, u: Tables)
    requires Integrity(t) && Resolved(t, u)
    ensures Complete(u)
  {
    forall i | 0 <= i < |u.edges| && Unresolved(u.edges[i])
      ensures !NameKnown(u, u.edges[i].name.value)
    {
      assert ResolvedRow(t, t.edges[i], u.edges[i]);
    }
  }

  lemma ResolveView(t: Tables, u: Tables, g: string)
    requires Integrity(t) && Resolved(t, u)
    ensures View(u, g) == View(t, g)
  {
    forall i | 0 <= i < |t.edges|
      ensures OwnedBy(t, g)(t.edges[i]) == OwnedBy(u, g)(u.edges[i])
      ensures Abstract(t)(t.edges[i]) == Abstract(u)(u.edges[i])
    {
      assert ResolvedRow(t, t.edges[i], u.edges[i]);
      assert EdgeOk(t.symbols, t.edges[i]);
    }
    SelectCong(t.edges, OwnedBy(t, g), Abstract(t), u.edges, OwnedBy(u, g), Abstract(u));
  }

  // ---- One update ----

  /** What a file holds: text with a syntax tree in the language of the file, or with a syntax error. */
  datatype Source = Unreadable | Unparsable | Parsable(root: WalkSpec.Node)

  datatype FileEvent = Created | Modified | Removed

  datatype Change = Change(file: string, event: FileEvent, source: Source)

  /** Files with a foreign extension are not parsed. */
  function Parse(file: string, source: Source): (r: Option<ParseResult>)
    ensures r.Some? ==> WellFormed(r.value, file)
  {
    if source.Parsable? && LanguageOf(file).Some?
    then Some(WalkSpec.ParseFile(file, LanguageOf(file).value, source.root)) else None
  }

  /** The parse an event brings in, if any. */
  function Outcome(c: Change): (r: Option<ParseResult>)
    ensures r.Some? ==> WellFormed(r.value, c.file)
  {
    if c.event == Removed then None else Parse(c.file, c.source)
  }

  /** `update_file`: the old data goes; a successful parse comes in and everything is re-resolved. */
  ghost predicate Updated(t: Tables, c: Change, u: Tables) {
    match Outcome(c)
    case None => u == DeleteFileData(t, c.file)
    case Some(r) => Resolved(InsertParse(DeleteFileData(t, c.file), c.file, r), u)
  }

  /** The latest successful parse of every indexed file. */
  type FileIndex = map<string, ParseResult>

  function Apply(index: FileIndex, c: Change): FileIndex {
    match Outcome(c)
    case None => index - {c.file}
    case Some(r) => index[c.file := r]
  }

  function Shows(index: FileIndex, file: string): FileView {
    if file in index then Contribution(file, index[file]) else NOTHING
  }

  /** The tables are in order and show, for every file, exactly its latest successful parse. */
  ghost predicate Represents(t: Tables, index: FileIndex) {
    Integrity(t) && forall file :: View(t, file) == Shows(index, file)
  }

  lemma DeletedIsVacant(t: Tables, file: string)
    requires Integrity(t)
    ensures Vacant(DeleteFileData(t, file), file)
  {
    hide DeleteFileData;
    DeletedShape(t, file);
  }

  /** After an update the file shows its new parse, or nothing, and all other files what they showed. */
  lemma UpdateViews(t: Tables, c: Change, u: Tables, g: string)
    requires Integrity(t) && Updated(t, c, u)
    ensures View(u, g) == if g != c.file then View(t, g)
                          else match Outcome(c) case None => NOTHING case Some(r) => Contribution(c.file, r)
    ensures Integrity(u) && (Outcome(c).Some? ==> Complete(u))
  {
    hide View, DeleteFileData, InsertParse, Integrity, Contribution, Vacant;
    var d := DeleteFileData(t, c.file);
    DeleteKeepsIntegrity(t, c.file);
    DeletedIsVacant(t, c.file);
    DeleteView(t, c.file, c.file);
    DeleteView(t, c.file, g);
    match Outcome(c)
    case None =>
    case Some(r) =>
      var i := InsertParse(d, c.file, r);
      InsertKeepsIntegrity(d, c.file, r);
      ResolveKeepsIntegrity(i, u);
      ResolveCompletes(i, u);
      InsertView(d, c.file, r, g);
      ResolveView(i, u, g);
  }

  /** One update of the tables is one update of the index they represent. */
  lemma UpdateRefines(t: Tables, index: FileIndex, c: Change, u: Tables)
    requires Represents(t, index) && Updated(t, c, u)
    ensures Represents(u, Apply(index, c))
    ensures Outcome(c).Some? ==> Complete(u)
  {
    hide View, Integrity, Contribution, Updated, Outcome;
    UpdateViews(t, c, u, c.file);
    forall g
      ensures View(u, g) == Shows(Apply(index, c), g)
    {
      UpdateViews(t, c, u, g);
      assert View(t, g) == Shows(index, g);
    }
  }

  // ---- The full build ----

  /** A project: the supported files under its root and what reading and parsing each one gives. */
  type Disk = map<string, Source>

  function IndexOf(disk: Disk): FileIndex {
    map f | f in disk && Parse(f, disk[f]).Some? :: Parse(f, disk[f]).value
  }

  /** The files inserted one after the other; a file that cannot be read or parsed is skipped. */
  function InsertAll(t: Tables, files: seq<string>, disk: Disk): Tables
    requires forall f :: f in files ==> f in disk
  {
    if files == [] then t
    else
      var f := files[|files| - 1];
      var before := InsertAll(t, files[..|files| - 1], disk);
      match Parse(f, disk[f])
      case None => before
      case Some(r) => InsertParse(before, f, r)
  }

  ghost predicate Built(t: Tables, files: seq<string>, disk: Disk, u: Tables)
    requires forall f :: f in files ==> f in disk
  {
    Resolved(InsertAll(t, files, disk), u)
  }

  /** Directory listing: every file once. */
  ghost predicate Lists(files: seq<string>, disk: Disk) {
    && (forall f :: f in files <==> f in disk)
    && (forall i, j :: 0 <= i < j < |files| ==> files[i] != files[j])
  }

  lemma EmptyRepresents()
    ensures Represents(EMPTY, map[])
  {
    forall g ensures View(EMPTY, g) == NOTHING {
      assert Filter(EMPTY.edges, OwnedBy(EMPTY, g)) == [];
      assert SymbolsIn(EMPTY, g) == {};
    }
  }

  lemma ShowsNothingIsVacant(t: Tables, file: string)
    requires View(t, file) == NOTHING
    ensures Vacant(t, file)
  {
    forall id | id in t.symbols
      ensures SymbolsIn(t, t.symbols[id].file) != {}
    {
      assert Anonymous(t.symbols[id]) in SymbolsIn(t, t.symbols[id].file);
    }
  }

  function Listed(files: seq<string>, disk: Disk): Disk
    requires forall f :: f in files ==> f in disk
  {
    map f | f in files :: disk[f]
  }

  lemma IndexOfListed(files: seq<string>, disk: Disk)
    requires files != [] && forall f :: f in files ==> f in disk
    requires files[|files| - 1] !in files[..|files| - 1]
    ensures var f, before := files[|files| - 1], IndexOf(Listed(files[..|files| - 1], disk));
            f !in before && IndexOf(Listed(files, disk)) ==
              match Parse(f, disk[f]) case None => before case Some(r) => before[f := r]
  {
    hide Parse;
    var f, init := files[|files| - 1], files[..|files| - 1];
    assert forall g :: g in files <==> g in init || g == f;
    assert Listed(files, disk) == Listed(init, disk)[f := disk[f]];
  }

  /** One more file: the tables show one more parse. */
  lemma InsertRepresents(t: Tables, index: FileIndex, file: string, r: ParseResult)
    requires Represents(t, index) && file !in index && WellFormed(r, file)
    ensures Represents(InsertParse(t, file, r), index[file := r])
  {
    hide View, InsertParse, Integrity, Contribution, Vacant, WellFormed;
    assert View(t, file) == Shows(index, file);
    ShowsNothingIsVacant(t, file);
    InsertKeepsIntegrity(t, file, r);
    forall g ensures View(InsertParse(t, file, r), g) == Shows(index[file := r], g) {
      InsertView(t, file, r, g);
      assert View(t, g) == Shows(index, g);
    }
  }

  lemma {:induction false} InsertAllRepresents(files: seq<string>, disk: Disk)
    requires forall f :: f in files ==> f in disk
    requires forall i, j :: 0 <= i < j < |files| ==> files[i] != files[j]
    ensures Represents(InsertAll(EMPTY, files, disk), IndexOf(Listed(files, disk)))
  {
    hide Represents, InsertParse;
    if files == [] {
      EmptyRepresents();
      assert IndexOf(Listed(files, disk)) == map[];
    } else {
      var f, init := files[|files| - 1], files[..|files| - 1];
      InsertAllRepresents(init, disk);
      IndexOfListed(files, disk);
      hide IndexOf, Listed, Parse;
      match Parse(f, disk[f])
      case None =>
      case Some(r) =>
        InsertRepresents(InsertAll(EMPTY, init, disk), IndexOf(Listed(init, disk)), f, r);
    }
  }

  /** A full build of an empty store shows exactly the parsable files, fully resolved. */
  lemma BuildRepresents(files: seq<string>, disk: Disk, u: Tables)
    requires Lists(files, disk) && Built(EMPTY, files, disk, u)
    ensures Represents(u, IndexOf(disk)) && Complete(u)
  {
    hide View, Integrity, Contribution, InsertAll;
    var i := InsertAll(EMPTY, files, disk);
    InsertAllRepresents(files, disk);
    assert Listed(files, disk) == disk;
    ResolveKeepsIntegrity(i, u);
    ResolveCompletes(i, u);
    forall g ensures View(u, g) == View(i, g) {
      ResolveView(i, u, g);
    }
  }

  // ---- Runs ----

  ghost predicate Run(ts: seq<Tables>, changes: seq<Change>) {
    && |ts| == |changes| + 1
    && forall i :: 0 <= i < |changes| ==> Updated(ts[i], changes[i], ts[i + 1])
  }

  function Replay(index: FileIndex, changes: seq<Change>): FileIndex {
    if changes == [] then index
    else Apply(Replay(index, changes[..|changes| - 1]), changes[|changes| - 1])
  }

  /** Every table state of a run represents the replay of the changes so far. */
  lemma {:induction false} RunRefines(ts: seq<Tables>, changes: seq<Change>, index: FileIndex)
    requires Run(ts, changes) && Represents(ts[0], index)
    ensures Represents(ts[|changes|], Replay(index, changes))
    ensures changes != [] && Outcome(changes[|changes| - 1]).Some? ==> Complete(ts[|changes|])
  {
    hide Represents, Updated, Complete;
    if changes != [] {
      var n := |changes| - 1;
      assert Run(ts[..n + 1], changes[..n]) by {
        forall i | 0 <= i < n
          ensures Updated(ts[..n + 1][i], changes[..n][i], ts[..n + 1][i + 1])
        {
          assert Updated(ts[i], changes[i], ts[i + 1]);
        }
      }
      RunRefines(ts[..n + 1], changes[..n], index);
      UpdateRefines(ts[n], Replay(index, changes[..n]), changes[n], ts[n + 1]);
    }
  }

  /** The project after the changes: what an event reports is what the file then is. */
  function DiskAfter(disk: Disk, changes: seq<Change>): Disk {
    if changes == [] then disk
    else
      var before := DiskAfter(disk, changes[..|changes| - 1]);
      var c := changes[|changes| - 1];
      if c.event == Removed then before - {c.file} else before[c.file := c.source]
  }

  lemma IndexOfStep(disk: Disk, c: Change)
    ensures IndexOf(if c.event == Removed then disk - {c.file} else disk[c.file := c.source]) == Apply(IndexOf(disk), c)
  {
    hide Parse;
    var after := if c.event == Removed then disk - {c.file} else disk[c.file := c.source];
    var left, right := IndexOf(after), Apply(IndexOf(disk), c);
    forall f
      ensures f in left <==> f in right
      ensures f in left ==> left[f] == right[f]
    {
      if f == c.file {
        assert f in left <==> Outcome(c).Some?;
      } else {
        assert f in after <==> f in disk;
      }
    }
  }

  lemma {:induction false} ReplayIsDisk(disk: Disk, changes: seq<Change>)
    ensures Replay(IndexOf(disk), changes) == IndexOf(DiskAfter(disk, changes))
  {
    hide IndexOf, Apply;
    if changes != [] {
      ReplayIsDisk(disk, changes[..|changes| - 1]);
      IndexOfStep(DiskAfter(disk, changes[..|changes| - 1]), changes[|changes| - 1]);
    }
  }

  /**
   * Incremental indexing refines a full rebuild: after a build and any changes, every file's view is
   * the one a fresh build of the changed project gives.
   */
  lemma IncrementalEqualsRebuild(
    files: seq<string>, disk: Disk, ts: seq<Tables>, changes: seq<Change>, filesNow: seq<string>, rebuilt: Tables)
    requires Run(ts, changes)
    requires Lists(files, disk) && Built(EMPTY, files, disk, ts[0])
    requires Lists(filesNow, DiskAfter(disk, changes)) && Built(EMPTY, filesNow, DiskAfter(disk, changes), rebuilt)
    ensures Integrity(ts[|changes|])
    ensures forall file :: View(ts[|changes|], file) == View(rebuilt, file)
  {
    hide View, Integrity, InsertAll, Updated;
    BuildRepresents(files, disk, ts[0]);
    RunRefines(ts, changes, IndexOf(disk));
    ReplayIsDisk(disk, changes);
    BuildRepresents(filesNow, DiskAfter(disk, changes), rebuilt);
    forall file ensures View(ts[|changes|], file) == View(rebuilt, file) {
      assert View(ts[|changes|], file) == Shows(IndexOf(DiskAfter(disk, changes)), file);
    }
  }
}
