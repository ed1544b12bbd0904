/**
 * The index tables as a value, and the SQL statements of crates/visp-codegraph/src/store.rs as
 * functions on it, foreign-key actions included. Edge, import and export rows are kept in row-id
 * order. Class Store holds the same tables as fields.
 */
module Tables {
  import opened Collections
  import opened Graph

  datatype EdgeRow = EdgeRow(id: nat, source: nat, target: Option<nat>, name: Option<string>, kind: EdgeKind)

  /** A row of the imports or of the exports table. */
  datatype Row<T> = Row(file: string, entry: T)

  datatype FileRow = FileRow(language: string, symbolCount: nat)

  datatype Tables = Tables(
    symbols: map<nat, Symbol>,  // by row id
    nextSymbol: nat,            // AUTOINCREMENT: ids are never used twice
    edges: seq<EdgeRow>,
    nextEdge: nat,
    imports: seq<Row<Import>>,
    exports: seq<Row<Export>>,
    files: map<string, FileRow>)

  const EMPTY := Tables(map[], 1, [], 1, [], [], map[])

  // ---- Deleting symbols ----

  /** ON DELETE SET NULL on an edge's target. */
  function Detach(dead: set<nat>): EdgeRow -> EdgeRow {
    (e: EdgeRow) => if e.target.Some? && e.target.value in dead then e.(target := None) else e
  }

  function SourceOutside(dead: set<nat>): EdgeRow -> bool {
    (e: EdgeRow) => e.source !in dead
  }

  function SymbolOutside(dead: set<nat>): Row<Export> -> bool {
    (x: Row<Export>) => !(x.entry.symbol.Some? && x.entry.symbol.value in dead)
  }

  /** DELETE FROM symbols, with ON DELETE CASCADE on edge sources and exports. */
  function DeleteSymbols(t: Tables, dead: set<nat>): Tables {
    t.(symbols := t.symbols - dead,
       edges := Map(Filter(t.edges, SourceOutside(dead)), Detach(dead)),
       exports := Filter(t.exports, SymbolOutside(dead)))
  }

  function SymbolsOf(t: Tables, file: string): set<nat> {
    set id | id in t.symbols && t.symbols[id].file == file
  }

  function DeleteByFile(t: Tables, file: string): Tables {
    DeleteSymbols(t, SymbolsOf(t, file))
  }

  /** Gives an edge bound to a symbol among `ids` back the name of that symbol. */
  function Unbind(symbols: map<nat, Symbol>, ids: set<nat>): EdgeRow -> EdgeRow {
    (e: EdgeRow) =>
      if e.target.Some? && e.target.value in ids && e.target.value in symbols
      then e.(name := Some(symbols[e.target.value].name), target := None)
      else e
  }

  function Outside<T>(file: string): Row<T> -> bool {
    (r: Row<T>) => r.file != file
  }

  /** The six statements of the transaction, in order. */
  function DeleteFileData(t: Tables, file: string): Tables {
    var ids := SymbolsOf(t, file);
    var t1 := t.(edges := Map(t.edges, Unbind(t.symbols, ids)));
    var t2 := t1.(edges := Filter(t1.edges, SourceOutside(ids)));
    var t3 := DeleteSymbols(t2, ids);
    t3.(imports := Filter(t3.imports, Outside(file)),
        exports := Filter(t3.exports, Outside(file)),
        files := t3.files - {file})
  }

  // ---- Inserting ----

  function SameKey(t: Tables, s: Symbol): set<nat> {
    set id | id in t.symbols && t.symbols[id].file == s.file && t.symbols[id].name == s.name
  }

  /** INSERT OR REPLACE: a row with the same (file, name) is deleted first, foreign-key actions included. */
  function InsertSymbol(t: Tables, s: Symbol): Tables {
    var t1 := DeleteSymbols(t, SameKey(t, s));
    t1.(symbols := t1.symbols[t1.nextSymbol := s.(id := t1.nextSymbol)], nextSymbol := t1.nextSymbol + 1)
  }

  function InsertSymbols(t: Tables, ss: seq<Symbol>): (r: Tables)
    ensures r.nextSymbol == t.nextSymbol + |ss|
  {
    if ss == [] then t else InsertSymbol(InsertSymbols(t, ss[..|ss| - 1]), ss[|ss| - 1])
  }

  lemma InsertNoSymbols(t: Tables)
    ensures InsertSymbols(t, []) == t
  {
  }

  lemma InsertSymbolsStep(t: Tables, ss: seq<Symbol>, i: nat)
    requires i < |ss|
    ensures InsertSymbols(t, ss[..i + 1]) == InsertSymbol(InsertSymbols(t, ss[..i]), ss[i])
  {
    assert ss[..i + 1][..i] == ss[..i];
  }

  /** The foreign keys of an edge row. */
  predicate KeysExist(t: Tables, e: Edge) {
    e.sourceId in t.symbols && (e.targetId.Some? ==> e.targetId.value in t.symbols)
  }

  function RowFor(id: nat, e: Edge): EdgeRow {
    EdgeRow(id, e.sourceId, e.targetId, e.targetName, e.kind)
  }

  function EdgeRows(first: nat, es: seq<Edge>): (r: seq<EdgeRow>)
    ensures |r| == |es|
  {
    seq(|es|, i requires 0 <= i < |es| => RowFor(first + i, es[i]))
  }

  function InsertEdges(t: Tables, es: seq<Edge>): Tables {
    t.(edges := t.edges + EdgeRows(t.nextEdge, es), nextEdge := t.nextEdge + |es|)
  }

  function Rows<T>(file: string, entries: seq<T>): (r: seq<Row<T>>)
    ensures forall x :: 0 <= x < |r| ==> r[x].file == file
  {
    Map(entries, (e: T) => Row(file, e))
  }

  // ---- Reading ----

  predicate NameKnown(t: Tables, name: string) {
    exists id :: id in t.symbols && t.symbols[id].name == name
  }

  predicate Unresolved(e: EdgeRow) {
    e.target.None? && e.name.Some?
  }

  function NameAndFile(symbols: map<nat, Symbol>, id: nat): (string, string) {
    if id in symbols then (symbols[id].name, symbols[id].file) else ("", "")
  }

  /** A row of `edges JOIN symbols ON target_id` for one source: name and file of a symbol it is bound to. */
  ghost predicate CalleeRow(t: Tables, id: nat, row: (string, string)) {
    exists e :: e in t.edges && e.source == id && e.target.Some? && e.target.value in t.symbols
                && row == NameAndFile(t.symbols, e.target.value)
  }

  /** A row of `edges JOIN symbols ON source_id` for one target: name and file of a symbol bound to it. */
  ghost predicate CallerRow(t: Tables, id: nat, row: (string, string)) {
    exists e :: e in t.edges && e.target == Some(id) && e.source in t.symbols && row == NameAndFile(t.symbols, e.source)
  }

  /** An edge that waits, with its name. */
  ghost predicate WaitingRow(edges: seq<EdgeRow>, row: (nat, string)) {
    exists e :: e in edges && Unresolved(e) && row == (e.id, e.name.value)
  }

  // ---- Integrity ----

  ghost predicate SymbolsOk(t: Tables) {
    && (forall id :: id in t.symbols ==> t.symbols[id].id == id && id < t.nextSymbol)
    && (forall a, b | a in t.symbols && b in t.symbols && t.symbols[a].file == t.symbols[b].file ::
          t.symbols[a].name == t.symbols[b].name ==> a == b)
  }

  /** Live source, exactly one of target id and target name, and a live target if there is one. */
  ghost predicate EdgeOk(symbols: map<nat, Symbol>, e: EdgeRow) {
    && e.source in symbols
    && (e.target.Some? <==> e.name.None?)
    && (e.target.Some? ==> e.target.value in symbols)
  }

  /** Edge ids increase and are all below the next one. */
  ghost predicate Increasing(rows: seq<EdgeRow>, next: nat) {
    && (forall i, j :: 0 <= i < j < |rows| ==> rows[i].id < rows[j].id)
    && (forall i :: 0 <= i < |rows| ==> rows[i].id < next)
  }

  ghost predicate Ordered(t: Tables) {
    Increasing(t.edges, t.nextEdge)
  }

  /** What the statements keep even where they leave edges dangling. */
  ghost predicate Sound(t: Tables) {
    && SymbolsOk(t)
    && Ordered(t)
    && (forall x :: x in t.exports ==> x.entry.symbol.None?)
  }

  ghost predicate Integrity(t: Tables) {
    && Sound(t)
    && (forall e :: e in t.edges ==> EdgeOk(t.symbols, e))
  }

  /** No edge waits under a name that some live symbol has. */
  ghost predicate Complete(t: Tables) {
    forall e :: e in t.edges && Unresolved(e) ==> !NameKnown(t, e.name.value)
  }

  // ---- What the index says about one file ----

  datatype AbsEdge = AbsEdge(source: string, target: Option<string>, kind: EdgeKind)

  /** A file's symbols without row ids, its edges by names, its imports, exports and file record. */
  datatype FileView = FileView(
    symbols: set<Symbol>,
    edges: seq<AbsEdge>,
    imports: seq<Import>,
    exports: seq<Export>,
    record: Option<FileRow>)

  const NOTHING := FileView({}, [], [], [], None)

  function Anonymous(s: Symbol): Symbol {
    s.(id := 0)
  }

  /** The name the edge is about: the waiting name, or the name of the symbol it is bound to. */
  function Effective(t: Tables, e: EdgeRow): Option<string> {
    if e.target.Some? && e.target.value in t.symbols then Some(t.symbols[e.target.value].name) else e.name
  }

  function NameOf(t: Tables, id: nat): string {
    if id in t.symbols then t.symbols[id].name else ""
  }

  function Abstract(t: Tables): EdgeRow -> AbsEdge {
    (e: EdgeRow) => AbsEdge(NameOf(t, e.source), Effective(t, e), e.kind)
  }

  function OwnedBy(t: Tables, file: string): EdgeRow -> bool {
    (e: EdgeRow) => e.source in t.symbols && t.symbols[e.source].file == file
  }

  function EdgesOf(t: Tables, file: string): seq<AbsEdge> {
    Map(Filter(t.edges, OwnedBy(t, file)), Abstract(t))
  }

  function Inside<T>(file: string): Row<T> -> bool {
    (r: Row<T>) => r.file == file
  }

  function EntriesOf<T(!new)>(rows: seq<Row<T>>, file: string): seq<T> {
    Map(Filter(rows, Inside(file)), (r: Row<T>) => r.entry)
  }

  function SymbolsIn(t: Tables, file: string): set<Symbol> {
    set id | id in t.symbols && t.symbols[id].file == file :: Anonymous(t.symbols[id])
  }

  function View(t: Tables, file: string): FileView {
    FileView(SymbolsIn(t, file), EdgesOf(t, file), EntriesOf(t.imports, file), EntriesOf(t.exports, file),
             if file in t.files then Some(t.files[file]) else None)
  }
}
