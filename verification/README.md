# Visp: code-graph index, agent orchestrator and ACP turns

A Dafny model of three parts of Visp that keep state in step with a stream of events, and proofs of what
they promise about every run.

**The code-graph index** (`crates/visp-codegraph`). A relational store of symbols, edges, imports, exports
and files is updated file by file. An edge is stored under the name of its target, bound to a symbol when
one of that name exists, unbound when the file of that symbol goes, and bound again later. The central
result is that incremental indexing is a refinement of a full rebuild: after a build and any sequence of
created, modified and removed files, the tables show for every file exactly what a fresh build would show.
`IndexRuns` states it, `IndexSpec` proves what deleting and inserting a file does, `IndexEdges` follows
single edges through a run and says exactly when a deletion leaves the edges in order or the names resolved,
`Rebuilds` says exactly when a full build over a filled store keeps the edges in order, `RebuildViews` what the
store then shows. `Watcher` proves that the debounced event loop gives the same index as all events one by one,
`Query` that the call-path search finds shortest paths and what the impact analysis lists: its listing is determined
by the order of the rows the store returns (`Exploration`), and its sets are exact when the depth suffices.
`WalkSpec` and `Parser` prove that the syntax-tree walk produces what the store relies on. `Reading` says what a syntax tree declares and refers to, by node kinds and
languages alone, with names instead of ids, dedup set and enclosing symbol (`Leaves` what is written at a node);
`ReadingWalk` and `ReadingFiles` prove that the walk collects exactly that, and `TreeViews` that the tables show it:
after an update, a build or a whole run the view of every file is what its tree says in the language of its extension
(`Languages`). `Statements` says row by row what the statements of the store do.
`Storage`, `Index`, `Watcher`, `Query` and `Parser` hold the classes that change their fields in place; each
method is tied to a function or relation on values.

**The multi-agent orchestrator** (`crates/visp-agent`). `Orchestration` is the state machine of one message
handler over the forest of live agents, the concurrency cap, the queue of waiting spawns, the response
channels and the published lifecycle events; Done and Error may arrive for any id at any time.
`Outcomes` says field by field what each message comes to, and which hooks and replies go out over a run;
`SpawnInvariants` and `Lifecycle` prove what every step keeps, `OrchestratorRuns` and `Scheduling` what
follows for whole runs, `DepthBound` exactly when the depth bound survives a step. `ActiveAgents` holds the
registry with its loops over parent links, `Orchestrator.dfy` (module `Handlers`) the handlers themselves,
which are proved to perform the steps of the state machine. The session manager is modelled as far as the
orchestrator relies on it (crates/visp-core/src/session.rs:262-464): a child session gets a new id, only an idle
session can start a loop, nothing but starting a loop makes a session running, and only a running loop can be
cancelled.

**The ACP turn** (`crates/visp-acp`). `Translation` proves which message ids agree and which daemon frames
leave no trace in the output. `Turns` is the state machine of prompts, cancel requests and pumps, with the
proof that at most one pump is at work and no frame is lost. `Sending` writes out what is sent for each kind of
frame and each answer of the client, and lifts it to turns and runs; `TurnOutcomes` says field by field what each
message to the agent comes to. `Sessions` and `Agent` hold the registry and the pump loop.

The cases below in which the code falls short are reached from the start by the runs in `IndexExamples` and
`CallExamples` (from the syntax trees of a project to its index and the answer), `OrchestratorExamples` and
`TurnExamples`.

Supporting modules: `Collections` (filter and map), `Graph` (rows), `Tables` (the statements of the store as
functions), `CallGraph` (paths).

Where code and documentation disagree the model follows the code:

- A comment in `build_full` (crates/visp-codegraph/src/index.rs:127-129) says that edges from outside every
  symbol are skipped. Their temporary source id 0 is also the id of the file's first symbol, so they are kept
  and attributed to it (`IndexSpec.TopLevelEdgesGoToFirstSymbol`).
- `delete_by_file` leaves edges with neither id nor name exactly when another file's edge is bound into the
  file (`IndexEdges.DeleteByFileIff`). A full build of a filled store does so exactly when an edge from a symbol
  that is not parsed again is bound to one that is (`Rebuilds.RebuildIff`): never for an unchanged project
  (`Rebuilds.RebuildOfUnchanged`), but for example when a file with such an edge has been deleted in between. Such a
  build keeps symbols that a file no longer declares and enters imports and exports a second time
  (`RebuildViews.RebuildShows`); when it shows just the parse is `RebuildViews.ShowsParseIff`.
- A removal, or an update whose file no longer parses, does not resolve names again. Exactly when something
  stays unresolved that could be bound is `IndexEdges.RemovalCompleteIff`; after a batch of events it depends on the
  last update alone (`Watcher.UpdateResolvedIff`).
- Names are unique in a file, so a second definition of a name gets no symbol. What is written inside it is
  attributed to the first definition (`ReadingFiles.DefinitionOwnsItsEdges`, `IndexExamples.SecondNewCallsAsFirst`).
- The impact analysis shares one visited set: callees that are also callers appear only as callers
  (`Query.CalleesCompleteIff`), as two functions that call each other show (`CallExamples.MutualCalleeMissing`). It goes
  depth first, so a small limit can leave out a near symbol that was first met far away: in a file of five functions
  one that is two calls away is missing from the answer with limit 3, and one that is called directly is listed at
  depth 3 (`CallExamples.CutOffMissesNear`, `CallExamples.CutOffAnswer`).
- The depth bound does not survive the restart of a root whose former descendants are still live and hang too
  deep; `DepthBound.NextKeepsBoundIff` is exact, `OrchestratorExamples.RestartExceedsBound` a run that gets there.
- A Done or Error takes at most one request from the queue, so if that one is refused a slot stays idle while
  others wait; `Scheduling.SlotRefilledIff` is exact.
- `route` is documented to drop late frames (crates/visp-acp/src/sessions.rs:134-137). Frames are only routed
  by a pump, whose own prompt is in flight, so that branch is never taken (`Turns.NeverRoutedToDrop`); late frames
  wait for the next turn, and a late Done or Error among them decides it (`Turns.LateFramesDecideIff`).
- A cancel notification names a session, but whichever it names, it interrupts the turn at work, which is then given
  up when nothing more arrives (`Turns.GivenUpIff`, `TurnExamples.OtherCancelEndsTurn`).
- A prompt that is admitted but has no usable text or does not get through to the daemon, and a prompt whose pump
  fails to send something, stays in flight for ever, and every later prompt is refused (`Turns.GetsStuckIff`,
  `Turns.StuckForever`).

## Model

| member | source | states |
|---|---|---|
| WalkSpec.AddSymbol | crates/visp-codegraph/src/parser.rs:647-680 | keeps ids equal to positions, names distinct and equal to the dedup set; the returned id names a symbol of that name, new or old |
| WalkSpec.AddEdge | crates/visp-codegraph/src/parser.rs:682-689 | the edge waits under a name and its source is 0 or a valid symbol id; nothing already collected changes |
| WalkSpec.Declare | crates/visp-codegraph/src/parser.rs:198-427 | declaring a name keeps the walk invariant and the owner of the children is a collected symbol |
| WalkSpec.WalkNode | crates/visp-codegraph/src/parser.rs:181-644 | for every node the walk terminates, only appends, and keeps ids = positions, distinct names = dedup set and valid edge sources; what it appends is stated by ReadingWalk.NodeSays |
| WalkSpec.WalkChildren | crates/visp-codegraph/src/parser.rs:148-178 | the same for all children of a node |
| WalkSpec.WalkClassBody | crates/visp-codegraph/src/parser.rs:910-959 | the same for a class body with its heritage clauses |
| WalkSpec.WalkVariables | crates/visp-codegraph/src/parser.rs:696-768 | the same for variable declarations; the owner of later initialisers is always a collected symbol |
| WalkSpec.WalkGoConstants | crates/visp-codegraph/src/parser.rs:446-480 | the same for Go constant groups |
| WalkSpec.WalkExport | crates/visp-codegraph/src/parser.rs:829-903 | the same for exports, whose entries never carry a symbol id |
| WalkSpec.ExportNewAdds | crates/visp-codegraph/src/parser.rs:829-903 | every newly declared symbol's name ends up exported; what is added is such a name, without a source, not exported before it |
| WalkSpec.ClassBodyIsChildren | crates/visp-codegraph/src/parser.rs:910-959 | the separate class-body walk gives exactly what walking the children gives, for every tree |
| WalkSpec.ParseFile | crates/visp-codegraph/src/parser.rs:55-115 | every parse result is well formed: ids are positions, (name, file) pairs distinct, edges unbound with source 0 or a valid id, exports without symbol ids |
| ReadingFiles.ParseSaysWhatTheTreeSays | crates/visp-codegraph/src/parser.rs:148-959 | for every tree and language the parse is determined by the tree read by node kinds and names only: symbols are the declarations with kind and position, the first of each name; edges the references from the symbol of the innermost enclosing name; imports and exports those of the statements; all in text order |
| ReadingFiles.EdgesBelongToFirst | crates/visp-codegraph/src/parser.rs:647-689 | every edge's source is the first symbol with the name of the innermost enclosing declaration, or 0 outside every declaration |
| ReadingWalk.NodeSays | crates/visp-codegraph/src/parser.rs:181-644 | the same for one node, from any state of the walk and inside any enclosing symbol; the reading matches on node kinds and languages itself and shares nothing with the walk |
| ReadingWalk.ReadIs | crates/visp-codegraph/src/parser.rs:181-644 | the table of node kinds the walk uses has for every kind and language the arm that the reading writes out |
| Leaves.FieldIs | crates/visp-codegraph/src/parser.rs:217-220 | the lookup of a field is the text of the first child in it |
| Leaves.IdentifierIs | crates/visp-codegraph/src/parser.rs:119-145 | the search for the name of a C function finds the first of all identifiers inside it, or its name field |
| Leaves.ImportsAre | crates/visp-codegraph/src/parser.rs:774-822 | an import statement yields its named imports, then its namespace, then its default import, all from the unquoted source |
| Leaves.ClauseNamesAre | crates/visp-codegraph/src/parser.rs:829-870 | the exported names are those of the specifiers of all export clauses, in order |
| Leaves.QuotesGo | crates/visp-codegraph/src/parser.rs:774-778 | exactly the quotes around a source text go |
| ReadingWalk.VariablesSay | crates/visp-codegraph/src/parser.rs:696-768 | the same for variable declarations, whose owner moves from declarator to declarator unless a name is repeated |
| ReadingWalk.ExportSays | crates/visp-codegraph/src/parser.rs:829-903 | the same for export statements: clause names, then what the statement declares, each once; re-exports are not looked into |
| ReadingFiles.ReadWithin | crates/visp-codegraph/src/parser.rs:181-644 | a reference below a node belongs to the enclosing owner or to a name declared below the node |
| ReadingFiles.DefinitionOwnsItsEdges | crates/visp-codegraph/src/parser.rs:217-320 | an edge inside a named definition belongs to its name or one declared inside; it goes to an earlier symbol outside if and only if that name was already taken, and otherwise the definition's own edges have the new symbol's id |
| IndexExamples.SecondNewCallsAsFirst | crates/visp-codegraph/src/parser.rs:656-662 | a file with two functions of one name has one symbol, and the call in the second is entered as a call by the first |
| Parser.Walker.AddSymbol | crates/visp-codegraph/src/parser.rs:647-680 | the in-place walk state becomes that of the specification, and the returned id agrees |
| Parser.Walker.AddEdge | crates/visp-codegraph/src/parser.rs:682-689 | appends exactly one unbound edge |
| Parser.Walker.VisitNode | crates/visp-codegraph/src/parser.rs:181-644 | the in-place walk of a node computes the specified walk, and so collects what the tree says |
| Parser.Walker.VisitChildren | crates/visp-codegraph/src/parser.rs:148-178 | the cursor loop over children computes the specified walk |
| Parser.Walker.VisitClassBody | crates/visp-codegraph/src/parser.rs:910-959 | the class-body loop computes the specified walk |
| Parser.Walker.HandleHeritage | crates/visp-codegraph/src/parser.rs:571-593 | one edge per named supertype, in order |
| Parser.Walker.HandleVariableDeclaration | crates/visp-codegraph/src/parser.rs:696-768 | the declarator loop computes the specified walk |
| Parser.Walker.HandleGoConstants | crates/visp-codegraph/src/parser.rs:446-480 | the specification loop computes the specified walk |
| Parser.Walker.HandleImport | crates/visp-codegraph/src/parser.rs:774-822 | appends exactly the imports of the statement, in order |
| Parser.Walker.HandleExport | crates/visp-codegraph/src/parser.rs:829-903 | appends exactly the specified exports after walking the declaration |
| Parser.ParseFile | crates/visp-codegraph/src/parser.rs:55-115 | the in-place parse returns the specified parse result |
| Languages.LanguageTable | crates/visp-codegraph/src/parser.rs:11-34 | the supported extensions and the language of each |
| Languages.ExtensionOf | crates/visp-codegraph/src/parser.rs:66-76 | in any directory the extension is what follows the last dot of the file name |
| Languages.RecordedAsParsed | crates/visp-codegraph/src/index.rs:45-62 | every supported file is recorded under the language it is parsed in |
| Storage.Store.InsertSymbols | crates/visp-codegraph/src/store.rs:139-158 | INSERT OR REPLACE in order: a row with the same file and name goes first, with its edges; new rows get consecutive fresh ids |
| Storage.Store.DeleteByFile | crates/visp-codegraph/src/store.rs:160-169 | deletes the file's symbols; foreign keys cascade on sources and null out targets |
| Storage.Store.DeleteFileData | crates/visp-codegraph/src/store.rs:178-207 | unbinds edges into the file back to names, then deletes all rows of the file |
| Storage.Store.InsertEdges | crates/visp-codegraph/src/store.rs:209-224 | succeeds exactly when every foreign key exists; on failure the edges before the bad one stay |
| Storage.Store.InsertImports | crates/visp-codegraph/src/store.rs:226-240 | appends the file's imports in order and nothing else |
| Storage.Store.InsertExports | crates/visp-codegraph/src/store.rs:242-261 | appends the file's exports in order and nothing else |
| Storage.Store.UpsertFile | crates/visp-codegraph/src/store.rs:409-423 | replaces the file record |
| Storage.Store.GetSymbolsByName | crates/visp-codegraph/src/store.rs:278-291 | all rows of the name, each once, in any order |
| Storage.Store.GetCallers | crates/visp-codegraph/src/store.rs:348-364 | one row for every edge bound to the symbol, whose source is live, with the source's name and file, in any order |
| Storage.Store.GetCallees | crates/visp-codegraph/src/store.rs:366-382 | one row for every edge of the source that is bound to a live symbol, with that symbol's name and file, in any order |
| Storage.Store.GetUnresolvedEdges | crates/visp-codegraph/src/store.rs:384-398 | one row for every edge that has a name and no target, with its id and name, in any order |
| Storage.Store.ResolveEdge | crates/visp-codegraph/src/store.rs:400-407 | binds that edge, clears its name and changes no other row |
| Statements.DeleteRows | crates/visp-codegraph/src/store.rs:160-169 | deleting symbols takes their edges and exports along and empties the targets of other edges, row by row |
| Statements.RemoveFileRows | crates/visp-codegraph/src/store.rs:178-207 | removing a file: the edges of other files stay, those into the file under the name they had; all rows of the file go |
| Statements.InsertSymbolRow | crates/visp-codegraph/src/store.rs:139-158 | a symbol gets a new id and replaces just the one of its file and name |
| Statements.InsertEdgeRows | crates/visp-codegraph/src/store.rs:209-224 | new edges get the next ids, in order, with what they were given |
| Statements.KeysExistIff | crates/visp-codegraph/src/store.rs:60-80 | an edge's foreign keys hold exactly if its source is there, and its target if it has one |
| Statements.EntryRows | crates/visp-codegraph/src/store.rs:226-261 | import and export rows keep the entries and their order |
| Statements.BindRows | crates/visp-codegraph/src/store.rs:400-407 | binding sets the target of that edge, clears its name and leaves all other rows alone |
| IndexSpec.DeletedShape | crates/visp-codegraph/src/store.rs:178-207 | the six statements together: surviving edges keep their order and are unbound only if they pointed into the file |
| IndexSpec.DeleteKeepsIntegrity | crates/visp-codegraph/src/store.rs:178-207 | every surviving edge has a live source and exactly one of target id (live) and target name |
| IndexSpec.DeleteView | crates/visp-codegraph/src/store.rs:178-207 | after deleting a file it contributes nothing and the view of every other file is unchanged |
| IndexSpec.InsertSymbolsAdds | crates/visp-codegraph/src/store.rs:139-158 | on a freshly cleared file a parse never triggers a replace: the rows are added under consecutive ids |
| IndexSpec.InsertParseKeysExist | crates/visp-codegraph/src/index.rs:117-141 | renumbered edges never violate a foreign key, even on a filled store |
| IndexSpec.InsertKeepsIntegrity | crates/visp-codegraph/src/index.rs:117-146 | inserting a parse into a cleared file keeps edge integrity |
| IndexSpec.InsertView | crates/visp-codegraph/src/index.rs:117-157 | the file then shows exactly its parse, all other files what they showed |
| IndexSpec.TopLevelEdgesGoToFirstSymbol | crates/visp-codegraph/src/index.rs:127-141 | edges from outside every symbol count as the first symbol's; only a file without symbols loses edges |
| Index.Indexer.ResolveCrossFileEdges | crates/visp-codegraph/src/index.rs:295-304 | every waiting edge whose name some symbol has is bound to one of them, whichever comes first; all else is unchanged |
| Index.Indexer.RemapSources | crates/visp-codegraph/src/index.rs:130-141 | sources are renumbered and edges without a mapped source skipped, in order |
| Index.Indexer.BuildFull | crates/visp-codegraph/src/index.rs:84-164 | never fails on a foreign key; inserts every parsable file in order and resolves; after a build of the empty store every file shows what its tree says in the language of its extension |
| Index.Indexer.UpdateFile | crates/visp-codegraph/src/index.rs:171-244 | old data goes in any case; a readable, parsable file of a supported language comes in and everything is resolved again; fails exactly when there is nothing to index; the file then shows what its tree says and no other file anything else |
| IndexRuns.ResolveKeepsIntegrity | crates/visp-codegraph/src/index.rs:295-304 | resolving keeps edge integrity whichever candidate is chosen |
| IndexRuns.ResolveCompletes | crates/visp-codegraph/src/index.rs:295-304 | afterwards no waiting edge carries a name that a live symbol has |
| IndexRuns.ResolveView | crates/visp-codegraph/src/index.rs:295-304 | resolving changes no file's view: the choice of candidate does not show |
| IndexRuns.UpdateRefines | crates/visp-codegraph/src/index.rs:171-244 | one update of the tables is one update of the map from files to latest parses; after a successful one resolution is complete |
| IndexRuns.BuildRepresents | crates/visp-codegraph/src/index.rs:84-164 | a build of an empty store shows every listed file's parse, with integrity and complete resolution |
| IndexRuns.RunRefines | crates/visp-codegraph/src/index.rs:84-244 | over any sequence of updates the tables represent the replayed map, with integrity, and complete after a successful update |
| IndexRuns.ReplayIsDisk | crates/visp-codegraph/src/index.rs:171-244 | replaying the changes gives the index of the changed project; unreadable or unparsable files contribute nothing |
| IndexRuns.IncrementalEqualsRebuild | crates/visp-codegraph/src/index.rs:84-244 | after a build and any updates every file's symbols, edges by effective name, imports, exports and record equal those of a fresh rebuild |
| TreeViews.ParseShowsTree | crates/visp-codegraph/src/parser.rs:55-115 | what a parse contributes is exactly the declarations, references, imports and exports of the tree read in that language, recorded under that language |
| TreeViews.UpdateShowsTree | crates/visp-codegraph/src/index.rs:171-244 | after an update the file shows exactly what its tree says in its language, or nothing; every other file shows what it showed |
| TreeViews.BuildShowsTrees | crates/visp-codegraph/src/index.rs:84-164 | after a build of the empty store every file shows exactly what its tree says |
| TreeViews.RunShowsTrees | crates/visp-codegraph/src/index.rs:84-244 | and so after a build and any changes, for the files as they are then |
| IndexEdges.UpdateContinues | crates/visp-codegraph/src/store.rs:178-224 | every older edge row after an update continues a row from before it |
| IndexEdges.EdgeKeepsMeaning | crates/visp-codegraph/src/store.rs:178-224 | over any run an edge keeps source, kind and effective target name across unbinding and rebinding |
| IndexEdges.RemovalCompleteIff | crates/visp-codegraph/src/index.rs:236-241 | from any state with edge integrity, resolution is complete after a removal or failed parse if and only if no surviving edge, waiting before or unbound now, is about a name that another file defines |
| IndexEdges.DeleteSymbolsIff | crates/visp-codegraph/src/store.rs:60-80 | deleting symbol rows keeps the edges in order if and only if no surviving edge is bound to one |
| IndexEdges.DeleteByFileIff | crates/visp-codegraph/src/store.rs:160-169 | `delete_by_file` is safe if and only if no edge of another file is bound into the file |
| IndexEdges.ReplaceIff | crates/visp-codegraph/src/store.rs:139-158 | replacing a single symbol row is safe if and only if no other symbol's edge is bound to it |
| Rebuilds.InsertSymbolsReplaces | crates/visp-codegraph/src/store.rs:139-158 | inserting a file's symbols over what is there is deleting the rows of the same keys at once, then adding the new ones |
| Rebuilds.BuildCarries | crates/visp-codegraph/src/index.rs:84-158 | a build of a filled store deletes exactly the symbols that are parsed again and adds new symbols, and new edges from them |
| Rebuilds.RebuildIff | crates/visp-codegraph/src/index.rs:84-164 | a full build of a filled store keeps edge integrity if and only if no edge from a symbol that is not parsed again is bound to one that is; then resolution is complete |
| RebuildViews.BuildGains | crates/visp-codegraph/src/index.rs:84-158 | what the build adds is for every file the symbols and the edges of its parse, its imports and exports appended to those there |
| RebuildViews.RebuildShows | crates/visp-codegraph/src/index.rs:84-164 | after a build of a filled store that keeps edge integrity every file shows its symbols that are not parsed again with their edges, then its parse; its imports and exports are the old entries followed by the new |
| RebuildViews.ShowsParseIff | crates/visp-codegraph/src/index.rs:84-164 | a parsed file then shows exactly its parse if and only if it still declares every symbol it had and had no imports and exports |
| Rebuilds.RebuildOfUnchanged | crates/visp-codegraph/src/index.rs:84-164 | building an unchanged project again keeps integrity and complete resolution |
| IndexExamples.ProjectFallsShort | crates/visp-codegraph/src/index.rs:84-244 | after the first build of a project of three files, a removal leaves a name unresolved, `delete_by_file` strands an edge, and so does a build when only one file is left, whichever candidate resolution chose |
| Watcher.ReplayIsAfter | crates/visp-codegraph/src/watcher.rs:86-112 | applying events in any order with distinct paths depends only on the last event per path |
| Watcher.DebounceSound | crates/visp-codegraph/src/watcher.rs:86-120 | with contents fixed, the last event per path in any order gives the same index as all events in arrival order |
| Watcher.RemovalsFirstEntries | crates/visp-codegraph/src/watcher.rs:113-115 | the stable sort keeps every entry exactly once |
| Watcher.RemovalsComeFirst | crates/visp-codegraph/src/watcher.rs:113-115 | all removals come before all updates, and each keep their order |
| Watcher.Watcher.CollectBatch | crates/visp-codegraph/src/watcher.rs:86-109 | the batch map holds the last event of every path of the window |
| Watcher.Watcher.ApplyInOrder | crates/visp-codegraph/src/watcher.rs:116-120 | the loop replays its entries, skipping failures; the last one starts from what the others make of the index |
| Watcher.Watcher.ProcessBatch | crates/visp-codegraph/src/watcher.rs:111-120 | the index after the batch is the one its last events call for; resolution is complete if and only if the last update applied parses or leaves nothing waiting that could be bound, and so whenever every update parses |
| Watcher.UpdateResolvedIff | crates/visp-codegraph/src/index.rs:171-244 | after an update resolution is complete if and only if the file parses or no edge left waiting is about a name that another file defines |
| Watcher.Watcher.ConsumeEvents | crates/visp-codegraph/src/watcher.rs:68-123 | however events fall into windows, and whatever the files hold when each batch reads them, the tables show what all events one by one would; each file shows what its tree said at some read after its last event, nothing if that was a removal, and what it showed before if it had none |
| Watcher.FileShownLast | crates/visp-codegraph/src/watcher.rs:68-123 | the last event of a file decides what it shows: nothing, or its tree as read later than that event |
| Watcher.ConvergesToFinal | crates/visp-codegraph/src/watcher.rs:68-123 | if the last read of every file found its final contents, the outcome is that of the final contents |
| CallGraph.FoundShortest | crates/visp-codegraph/src/query.rs:200-240 | the first path found in breadth-first order is a shortest one and repeats no symbol |
| CallGraph.AllFinished | crates/visp-codegraph/src/query.rs:200-250 | when the queue is empty, every symbol with a path has been visited |
| CallGraph.StaysInside | crates/visp-codegraph/src/query.rs:291-336 | a set closed under steps contains every chain from its members |
| Query.QueryEngine.FindSymbolByNameAndFile | crates/visp-codegraph/src/query.rs:339-346 | returns the symbol of that name and file if there is one |
| Query.QueryEngine.Expand | crates/visp-codegraph/src/query.rs:205-245 | one round of the search answers with the hops of a shortest path, each with name, file, line and signature of its symbol, or keeps the search invariant |
| Query.QueryEngine.BreadthFirst | crates/visp-codegraph/src/query.rs:190-250 | terminates on any graph; empty exactly if there is no path, else one hop for each symbol of a shortest path, with its name, file, line and signature |
| Query.QueryEngine.Trace | crates/visp-codegraph/src/query.rs:150-250 | for uniquely named endpoints a correct shortest-path search, each hop showing name, file, line and signature of its symbol, from the one name to the other; unknown names give nothing, ambiguous names an error |
| Query.QueryEngine.ExpandImpactDir | crates/visp-codegraph/src/query.rs:291-336 | lists each newly visited symbol once with a chain of exactly its depth; with enough depth the visited set is closed; at any depth the listing is the one that the order of the rows gives |
| Exploration.ExploreAgrees | crates/visp-codegraph/src/query.rs:291-336 | the depth-first listing depends only on the rows of the symbols it lists |
| CallExamples.IndexedAsWritten | crates/visp-codegraph/src/index.rs:84-164 | indexing any file of distinctly named functions gives one symbol for each and exactly the calls written in it, whichever candidates resolution chose |
| CallExamples.MutualCalleeMissing | crates/visp-codegraph/src/query.rs:252-289 | in the index of two functions that call each other, at every sufficient depth, each one's callee list misses the other |
| CallExamples.CutOffMissesNear | crates/visp-codegraph/src/query.rs:291-336 | in the index of five functions there is an order of rows for which, with limit 3, a symbol two calls away is not listed and one that is called directly has depth 3 |
| CallExamples.CutOffAnswer | crates/visp-codegraph/src/query.rs:252-289 | every answer the analysis gives for those rows is that one |
| Query.QueryEngine.Impact | crates/visp-codegraph/src/query.rs:252-289 | sound at any depth, no symbol twice, never the target; at depth at least the number of symbols callers are complete, and callees exactly what is reachable without passing callers; at any depth the two lists are those that the order of the rows gives |
| Query.CalleesCompleteIff | crates/visp-codegraph/src/query.rs:252-336 | the callee list is complete if and only if no other symbol is both caller and callee |
| Query.ImpactIsAnswer | crates/visp-codegraph/src/query.rs:252-289 | two expansions sharing their visited set give the impact answer |
| ActiveAgents.NoCycle | crates/visp-agent/src/active_agent.rs:70-101 | no agent is its own descendant in a registry whose parents are older |
| ActiveAgents.ClosedHasAll | crates/visp-agent/src/active_agent.rs:70-82 | a set closed under children contains all descendants |
| ActiveAgents.RankIrrelevant | crates/visp-agent/src/active_agent.rs:70-101 | depth and descent do not depend on the order used to justify termination |
| ActiveAgents.DepthIsLinks | crates/visp-agent/src/active_agent.rs:85-101 | the depth is the number of parent links of the chain to a live root, and 0 if there is no such chain |
| ActiveAgents.UnderIsChain | crates/visp-agent/src/active_agent.rs:70-82 | a descendant is a live agent with a chain of one or more parent links through live agents to the root |
| ActiveAgents.ActiveAgentRegistry.Register | crates/visp-agent/src/active_agent.rs:42-44 | the entry replaces one of the same session |
| ActiveAgents.ActiveAgentRegistry.Remove | crates/visp-agent/src/active_agent.rs:47-49 | removes and returns the entry |
| ActiveAgents.ActiveAgentRegistry.ComputeDepth | crates/visp-agent/src/active_agent.rs:85-101 | the loop terminates and returns the distance to the root, 0 if an ancestor is missing |
| ActiveAgents.ActiveAgentRegistry.DescendantsOf | crates/visp-agent/src/active_agent.rs:70-82 | terminates and returns exactly the transitive live descendants, each once |
| SpawnInvariants.SpawnKeepsInv | crates/visp-agent/src/orchestrator.rs:653-1024 | a spawn puts the request in hand in exactly one place and keeps forest, slots and accounting, whichever step fails |
| SpawnInvariants.FinishKeepsInv | crates/visp-agent/src/orchestrator.rs:1027-1254 | ending an agent keeps all invariants and, for a sub-agent, frees a slot |
| SpawnInvariants.DrainKeepsInv | crates/visp-agent/src/orchestrator.rs:1306-1333 | draining keeps all invariants |
| SpawnInvariants.ReceiveKeepsInv | crates/visp-agent/src/orchestrator.rs:348-374 | a new request, served, queued or refused, keeps all invariants |
| SpawnInvariants.NextKeepsInv | crates/visp-agent/src/orchestrator.rs:266-424 | every step keeps: parents older than children, handles = live sub-agents, channels of live sub-agents only, the concurrency cap, each request in exactly one place |
| OrchestratorRuns.RunKeepsInv | crates/visp-agent/src/orchestrator.rs:241-262 | every reachable state has the spawn and lifecycle invariants |
| OrchestratorRuns.RequestsConserved | crates/visp-agent/src/orchestrator.rs:653-1333 | requests received = rejected + queued + running + finished |
| OrchestratorRuns.AnsweredByOwnChild | crates/visp-agent/src/orchestrator.rs:1060-1074 | a channel is answered only when the child serving its request ends, and by that child |
| OrchestratorRuns.QueueStep | crates/visp-agent/src/orchestrator.rs:684-701 | a step appends the newest request at the cap, takes the head, or leaves the queue; ending a sub-agent always takes the head |
| OrchestratorRuns.NeverPutBack | crates/visp-agent/src/orchestrator.rs:1306-1333 | a request that left the queue is never put back |
| OrchestratorRuns.BoundedWaiting | crates/visp-agent/src/orchestrator.rs:295-301 | the request at position k has left the queue once k+1 live sub-agents have ended, whatever else arrives |
| OrchestratorRuns.UnlimitedNeverQueues | crates/visp-agent/src/orchestrator.rs:1287-1294 | with limit 0 nothing is ever queued, short of more requests than a machine word counts |
| OrchestratorRuns.SlotsUsed | crates/visp-agent/src/orchestrator.rs:1297-1303 | live sub-agents are as many as running requests and never more than the configured maximum, or a machine word when that is 0 |
| OrchestratorRuns.RunWithinCap | crates/visp-agent/src/orchestrator.rs:1287-1303 | over every run, whatever arrives, no more sub-agents are live than the configured maximum, unless that is 0 |
| Outcomes.RequestOutcome | crates/visp-agent/src/orchestrator.rs:653-1024 | a request is refused at the depth limit, queued at the configured maximum, and below it starts unless one of the named steps fails; every field of the state afterwards |
| Outcomes.DoneOutcome | crates/visp-agent/src/orchestrator.rs:1027-1138 | a Done takes a current agent away, leaves its session idle, answers with success and publishes a plain stop for a main agent; then the next waiting request is decided if there is room |
| Outcomes.ErrorOutcome | crates/visp-agent/src/orchestrator.rs:1151-1254 | an Error leaves the session failed, answers with failure and publishes a cancelled stop if the user cancelled, else a failure |
| Outcomes.InputOutcome | crates/visp-agent/src/orchestrator.rs:384-404 | user input starts a turn in a main session that does not run, with its hooks; if a step fails a final status still becomes idle |
| Outcomes.RunSends | crates/visp-agent/src/orchestrator.rs:266-424 | over every run the published hooks and the replies are exactly those the messages give rise to, in their order |
| Scheduling.SpawnOutcome | crates/visp-agent/src/orchestrator.rs:684-701 | a spawn is refused, queued only at the limit, or started only below it |
| Scheduling.PopRefusedIff | crates/visp-agent/src/orchestrator.rs:1306-1333 | whether a Done or Error refuses a waiting request is told beforehand by the depth of its parent among the agents left, the room, and the steps that may fail |
| Scheduling.RunInOrder | crates/visp-agent/src/orchestrator.rs:684-701 | while no request is refused when it is taken from the queue, a waiting request means every slot is in use, and sub-agents start in order of arrival |
| Scheduling.SlotRefilledIff | crates/visp-agent/src/orchestrator.rs:1306-1333 | with all slots in use, the end of a sub-agent by Done or Error leaves no slot idle while a request waits if and only if fewer than two wait or the first one's spawn does not meet a refusing guard |
| OrchestratorExamples.SlotStaysIdle | crates/visp-agent/src/orchestrator.rs:1306-1333 | a run from the start in which a refused request leaves a slot idle while another request waits |
| Lifecycle.BeginHooksOk | crates/visp-agent/src/orchestrator.rs:582-599 | a new turn keeps the trace well started and balanced |
| Lifecycle.NextKeepsLife | crates/visp-agent/src/orchestrator.rs:266-424 | every step keeps: SessionStart first, once and followed by UserPromptSubmit; ends plus one if live never exceed prompts; a running main session is registered |
| Lifecycle.RunningTurnSurvives | crates/visp-agent/src/orchestrator.rs:1049-1057 | no Done or Error, whichever session it names, takes down a running main turn or publishes for it |
| DepthBound.SpawnDepths | crates/visp-agent/src/orchestrator.rs:668-680 | whatever the depths of the others, a spawn registers a child one below its parent, or counting as a root, and never below the maximum, and changes the depth of no other agent |
| DepthBound.SpawnKeepsBound | crates/visp-agent/src/orchestrator.rs:668-680 | if every live agent is within the bound, so is every live agent after a spawn |
| DepthBound.FinishKeepsBound | crates/visp-agent/src/orchestrator.rs:1027-1254 | removing an agent makes no agent deeper |
| DepthBound.RestartBoundIff | crates/visp-agent/src/active_agent.rs:85-101 | registering a root again keeps the bound if and only if no live agent hangs more than the maximum below it |
| DepthBound.NextKeepsBoundIff | crates/visp-agent/src/orchestrator.rs:266-424 | for every step: the bound holds afterwards if and only if the step does not rejoin agents that hang too deep |
| DepthBound.RunKeepsBound | crates/visp-agent/src/orchestrator.rs:668-680 | the bound holds over every run without such a restart |
| OrchestratorExamples.RestartExceedsBound | crates/visp-agent/src/orchestrator.rs:429-649 | a run of seven messages from the start whose last step, the restart of a root, takes an agent over the bound for the first time |
| Handlers.SessionManager.CreateSub | crates/visp-core/src/session.rs:289-330 | a child session under a new id is idle and younger than all others; a failure changes nothing |
| Handlers.SessionManager.StartLoop | crates/visp-core/src/session.rs:347-388 | only an idle session starts, and is then running with a fresh token; a failure changes nothing |
| Handlers.SessionManager.FinishLoop | crates/visp-core/src/session.rs:391-401 | gives the session, if there is one, the status it is told, and no other session |
| Handlers.SessionManager.CancelAgent | crates/visp-core/src/session.rs:460-464 | cancels the token of a running loop and does nothing to a session that is not running |
| Handlers.Orchestrator.ActiveSubagentCount | crates/visp-agent/src/orchestrator.rs:1297-1303 | the loop counts exactly the live agents with a parent |
| Handlers.Orchestrator.SpawnSubAgent | crates/visp-agent/src/orchestrator.rs:653-1024 | performs the spawn step, whose outcome is Outcomes.RequestOutcome; a child that does not start is unregistered and leaves no handle, channel or entry |
| Handlers.Orchestrator.StartChild | crates/visp-agent/src/orchestrator.rs:817-1016 | registers, starts and unwinds as specified on each failure |
| Handlers.Orchestrator.DrainQueuedSpawns | crates/visp-agent/src/orchestrator.rs:1306-1333 | performs the drain step: at most one request, the oldest, and only below the configured maximum |
| Handlers.Orchestrator.OnDone | crates/visp-agent/src/orchestrator.rs:1027-1138 | performs the Done step; unknown agents and older turns change nothing |
| Handlers.Orchestrator.OnAgentError | crates/visp-agent/src/orchestrator.rs:1151-1254 | performs the Error step, with a cancelled Stop for a cancelled root |
| Handlers.Orchestrator.StartMainAgent | crates/visp-agent/src/orchestrator.rs:429-649 | performs the start step; a busy session changes nothing |
| Handlers.Orchestrator.OnUserInput | crates/visp-agent/src/orchestrator.rs:384-404 | resets a final status, then starts the turn |
| Handlers.Orchestrator.CancelAgent | crates/visp-agent/src/orchestrator.rs:1269-1281 | through the loop over descendants exactly the agent and its live subtree have their tokens cancelled, and so have the loops of theirs that run; nothing else changes |
| Handlers.Orchestrator.Shutdown | crates/visp-agent/src/orchestrator.rs:241-250 | cancels every live agent and its loop, and nothing else |
| Handlers.Orchestrator.HandleAgentMessage | crates/visp-agent/src/orchestrator.rs:266-381 | performs the step of an agent's message |
| Handlers.Orchestrator.HandleClientMessage | crates/visp-agent/src/orchestrator.rs:384-424 | performs the step of a client's message |
| Handlers.Orchestrator.Handle | crates/visp-agent/src/orchestrator.rs:266-424 | performs one step and keeps all invariants |
| Handlers.Orchestrator.Serve | crates/visp-agent/src/orchestrator.rs:241-262 | whatever arrives in whatever order, the states passed through form a run, to which the run theorems apply |
| Translation.SameMessageIff | crates/visp-acp/src/translate.rs:48-109 | two parent chunks share a message id if and only if no tool call lies between them and every parent chunk from one to the other has the same speaker |
| Translation.IdsNeverRecur | crates/visp-acp/src/translate.rs:59-72 | an id given up is never used again in the turn |
| Translation.FirstIdIsOne | crates/visp-acp/src/translate.rs:49-66 | every turn starts counting at msg-1, so ids do recur across turns |
| Translation.MessageNameInjective | crates/visp-acp/src/translate.rs:59-66 | different sequence numbers give different ids |
| Translation.SilentIff | crates/visp-acp/src/translate.rs:75-155 | the frames without effect, now or later, are exactly the children's text, thinking, status and ends, and the suppressed kinds |
| Translation.SilentFramesLeaveNoTrace | crates/visp-acp/src/translate.rs:75-155 | deleting all of them from any stream leaves the whole output unchanged |
| Translation.TruncatedKeepsEnds | crates/visp-acp/src/translate.rs:199-213 | output is shown in full if and only if it has at most 8000 characters; else its first 4000 and last 2000, with the number missing in between, and shorter than the output |
| Sending.FrameSends | crates/visp-acp/src/agent.rs:250-372 | what is sent for each kind of frame and each answer: the texts, ids, titles, kinds and flags of the frame itself; an approval is answered with the given index, a question with index and text, without forms with -1 and the skip text, a cancelled one not at all |
| Sending.RulingIs | crates/visp-acp/src/translate.rs:124-143 | a turn ends with its own session's Done, and with its Error as cancelled exactly when the code or the message says so |
| Sending.NumberIsCount | crates/visp-acp/src/translate.rs:59-72 | the number of a message id is the number of messages started so far: one for each piece of text that does not continue one of the same agent |
| Sending.RunTurnsSend | crates/visp-acp/src/agent.rs:199-372 | in every reachable state every turn has sent exactly what its frames call for, frame by frame in order; a failed one all but a part of its last |
| Sending.AnswersInOrder | crates/visp-acp/src/agent.rs:274-366 | the daemon gets one answer for each query that is not cancelled, in order |
| Translation.TranslateCtx.EnsureMessageId | crates/visp-acp/src/translate.rs:59-66 | the id changes exactly when the speaker does |
| Translation.TranslateCtx.RotateForTool | crates/visp-acp/src/translate.rs:69-71 | forgets the speaker and nothing else |
| Translation.TranslateCtx.Translate | crates/visp-acp/src/translate.rs:75-155 | output and new context are those of the specification, frame kind by frame kind |
| Sessions.SessionRegistry.TryBeginPrompt | crates/visp-acp/src/sessions.rs:63-76 | admits only a registered session with nothing in flight, and tells the two refusals apart |
| Sessions.SessionRegistry.EndPrompt | crates/visp-acp/src/sessions.rs:79-83 | releases only the session's own prompt |
| Sessions.SessionRegistry.Remove | crates/visp-acp/src/sessions.rs:91-96 | forgets the session and its prompt |
| Turns.VerdictIsRuling | crates/visp-acp/src/agent.rs:250-372 | a turn is finished by its own session's Done or Error frame and by no other, with the reason that frame gives |
| TurnOutcomes.AdmitIff | crates/visp-acp/src/sessions.rs:63-76 | a prompt is admitted exactly for a registered session with nothing in flight; unknown sessions and a second prompt of the same one are told busy, others that another is in flight |
| TurnOutcomes.PromptTextIff | crates/visp-acp/src/agent.rs:170-188 | a prompt is usable exactly when it is text throughout and not empty |
| TurnOutcomes.PromptOutcome | crates/visp-acp/src/agent.rs:135-166 | every field after a prompt: refused, stuck in flight, or at work with a fresh translator and token |
| TurnOutcomes.RequestOutcomes | crates/visp-acp/src/agent.rs:116-131 | a cancel request marks the current token, if there is one; sessions are registered under their own id; frames arrive in order until the stream closes |
| TurnOutcomes.ReleasedIff | crates/visp-acp/src/sessions.rs:79-83 | a prompt is released by its own session only |
| TurnOutcomes.TakeOutcome | crates/visp-acp/src/agent.rs:199-217 | every field after a pump has taken a frame, its answer, what it sent, and how the turn ends |
| TurnOutcomes.FailOutcome | crates/visp-acp/src/agent.rs:213-217 | when a send fails the turn has sent just the part before it, there is no answer and the prompt stays in flight |
| TurnOutcomes.IdleOutcome | crates/visp-acp/src/agent.rs:219-224 | with nothing waiting a turn is refused on a closed stream and goes on otherwise |
| TurnOutcomes.TimeOutOutcome | crates/visp-acp/src/agent.rs:225-243 | every field after the cancel window |
| TurnOutcomes.CancelledIff | crates/visp-acp/src/agent.rs:116-131 | in every run the queries of a turn go unanswered from the moment some cancel request, for any session, came after it started |
| TurnOutcomes.RouteIff | crates/visp-acp/src/sessions.rs:138-157 | exactly the frames other than queries are dropped, and only with no prompt in flight |
| Turns.NextKeepsInv | crates/visp-acp/src/agent.rs:135-261 | every step, failing sends included, keeps: at most one pump, its prompt in flight, every turn's output the translation of its frames, its reason from the first ending frame, no frame lost |
| Turns.RunKeepsInv | crates/visp-acp/src/agent.rs:135-261 | the same in every reachable state |
| Turns.SilentReceivedLeavesNoTrace | crates/visp-acp/src/agent.rs:199-372 | without its silent frames a turn sends the same |
| Turns.SilentFramesDoNotDecide | crates/visp-acp/src/agent.rs:199-372 | without its silent frames a correct turn is still correct with the same output, answer and cause |
| Turns.SameHeardSameTurn | crates/visp-acp/src/agent.rs:199-372 | two turns of a session that heard the same send the same and are decided by a frame both or neither, with the same reason |
| Turns.GetsStuckIff | crates/visp-acp/src/agent.rs:135-217 | the agent gets stuck if and only if an admitted prompt has no usable text or is not delivered, or a send fails while a pump delivers a frame |
| Turns.StuckForever | crates/visp-acp/src/sessions.rs:63-83 | once stuck, every later prompt is refused and no turn ever ends |
| Turns.NeverRoutedToDrop | crates/visp-acp/src/sessions.rs:138-157 | a pump never drops a frame |
| Turns.PollsOutcome | crates/visp-acp/src/agent.rs:199-247 | what any number of undisturbed rounds of a pump comes to: frames taken in order up to the first ending one, the end of the stream, or waiting |
| Turns.LateFramesDecideIff | crates/visp-acp/src/agent.rs:199-261 | whatever arrives or happens meanwhile, short of a failing send: a turn is decided by a frame from before its prompt if and only if a Done or Error of the session is among the waiting frames; the first one decides, gives the reason and is the last frame taken |
| Turns.CancelNamesNobody | crates/visp-acp/src/agent.rs:116-131 | a cancel request has the same effect whichever session it names |
| Turns.CancelPendingIff | crates/visp-acp/src/agent.rs:116-131 | over every run: a cancel is pending exactly when one, for any session, came after the last start of a pump |
| Turns.GivenUpIff | crates/visp-acp/src/agent.rs:225-243 | in every run a turn is given up exactly when the cancel window elapses with nothing waiting on an open stream and some cancel, for any session, came after the pump started |
| Turns.LateEndIff | crates/visp-acp/src/agent.rs:199-261 | with nothing new arriving, a turn is finished by a frame from before its prompt if and only if a Done or Error of the session is among the waiting frames and there are rounds enough to reach it; the first one decides and gives the reason |
| TurnExamples.LateDoneEndsNextTurn | crates/visp-acp/src/agent.rs:199-261 | a run from the start in which the Done of a turn that was given up ends the next turn |
| TurnExamples.OtherCancelEndsTurn | crates/visp-acp/src/agent.rs:225-243 | a run of two sessions in which a cancel for the second gives up the turn of the first |
| TurnExamples.EmptyPromptSticks | crates/visp-acp/src/agent.rs:135-166 | a run from the start in which an empty prompt gets the agent stuck |
| Agent.AgentState.PromptTextOf | crates/visp-acp/src/agent.rs:170-188 | the text blocks joined, or nothing if another block is among them or the text is empty |
| Agent.AgentState.OpenSession | crates/visp-acp/src/agent.rs:393-406 | performs the new-session step: the session is registered under its own id, and a prompt in flight stays so |
| Agent.AgentState.OnPrompt | crates/visp-acp/src/agent.rs:135-166 | performs the prompt step; the failures after admission leave the prompt in flight |
| Agent.AgentState.HandleCancel | crates/visp-acp/src/agent.rs:116-131 | cancels the current turn's token, whichever session is named |
| Agent.AgentState.Deliver | crates/visp-acp/src/agent.rs:250-372 | sends what the frame calls for (Sending.FrameSends) in order up to the end of the turn, or up to the send that fails |
| Agent.AgentState.TakeFrame | crates/visp-acp/src/agent.rs:213-217 | performs the dispatch of the next frame, or its failure, which does not release the prompt |
| Agent.AgentState.PollOnce | crates/visp-acp/src/agent.rs:199-244 | one round of the pump performs the poll step, or the failing one |
| Agent.AgentState.GiveUp | crates/visp-acp/src/agent.rs:225-243 | after the cancel window the pump gives up if and only if a cancel was requested and nothing is waiting |
| Agent.AgentState.PromptTask | crates/visp-acp/src/agent.rs:199-247 | on an open or closed stream, with frames, closing and cancels coming in between: while it waits the pump is the only one and has lost nothing; when it is over it has finished exactly one correct turn and released the prompt unless a send failed; on a closed stream it ends |

## Left out

- Full-text search, scoring, symbol details and source excerpts in crates/visp-codegraph/src/query.rs: ranking in floating point and display.
- The full-text tables and triggers of the store, its schema migrations and file timestamps.
- tree-sitter, directory walking and file reading: a file is a syntax tree, unreadable or unparsable; paths are strings, so lossy path conversion, prefix stripping and the normalising of trailing separators do not appear.
- resolve_import_source in crates/visp-codegraph/src/index.rs: not called.
- The list of matches in the error about an ambiguous name; only their number appears.
- SQL errors other than foreign keys, and the width of row ids (u64) and symbol counts (u32).
- The length of a debounce window: a quiet message stands for the elapsed window.
- What a full build of a filled store shows when it does strand edges.
- Query.QueryEngine.Impact: does not say that depths are shortest distances or that lists cut off by a small depth are complete, because the code's depth-first search with one visited set guarantees neither (`CallExamples.CutOffMissesNear`).
- Prompt text, model and provider resolution, images, permission merging, spans and usage counts in crates/visp-agent/src/orchestrator.rs; whether a definition or provider is found is a free input of each step.
- Messages to parent inboxes: their receiving ends are dropped when the registering function returns; the model keeps the outcome of the spawn and the answer to its channel, as a success flag without the text.
- Pending user queries, session-busy frames and the forwarding tasks of the orchestrator.
- Handlers.SessionManager.CreateSub: an id that is already used is refused, where the source returns the session that has it (crates/visp-core/src/session.rs:293-299); the orchestrator passes a fresh random id, so the case is a collision.
- Histories, configurations and templates of sessions, and their storage. The agent loop: statuses change by separate steps of the model, at any time.
- The moments at which a send fails or the cancel window elapses: both are steps that may happen whenever something is sent, or a cancel was requested and no frame waits. A pump that cannot be spawned at all counts as a prompt that is not delivered.
- The mapping of a client's permission or form answer to an index (crates/visp-acp/src/approval.rs): the mapped answer is a free input.
- The daemon-bound side of the ACP agent other than answers to queries: user inputs, cancels and request numbers.
- Removing a session during a turn: the registry method is modelled, but no handler of the agent calls it.
- grpc.rs, supervisor.rs, visp-config, visp-command and the thin registries of visp-core: network, process control and simple lookups.
