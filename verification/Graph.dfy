/** The rows and values of the code graph (crates/visp-codegraph/src/graph.rs). */
module Graph {
  import opened Collections

  datatype SymbolKind = Function | Method | Class | Interface | TypeAlias | Variable | Enum

  datatype EdgeKind = Call | Reference | Implementation | Inheritance

  datatype Symbol = Symbol(
    id: nat,
    name: string,
    kind: SymbolKind,
    file: string,
    line: nat,
    column: nat,
    signature: Option<string>,
    docstring: Option<string>)

  /** An edge is bound (`targetId`) or waits under the name it was written with (`targetName`). */
  datatype Edge = Edge(sourceId: nat, targetId: Option<nat>, targetName: Option<string>, kind: EdgeKind)

  datatype Export = Export(name: string, symbol: Option<nat>, source: Option<string>)

  type Import = (string, string)

  /** What parsing one file yields; symbol ids are temporary, 0, 1, 2, ... */
  datatype ParseResult = ParseResult(
    symbols: seq<Symbol>,
    edges: seq<Edge>,
    imports: seq<Import>,
    exports: seq<Export>)

  /** What every successful parse of `file` satisfies (proved of the walk in module Parser). */
  ghost predicate WellFormed(r: ParseResult, file: string)
  {
    && (forall i :: 0 <= i < |r.symbols| ==> r.symbols[i].id == i && r.symbols[i].file == file)
    && (forall i, j :: 0 <= i < j < |r.symbols| ==> r.symbols[i].name != r.symbols[j].name)
    && (forall e :: e in r.edges ==>
          e.targetId.None? && e.targetName.Some? && (e.sourceId == 0 || e.sourceId < |r.symbols|))
    && (forall x :: x in r.exports ==> x.symbol.None?)
  }
}
