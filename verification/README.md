# GPT Tunnel Manager: verified models

Dafny models of the concurrent and transactional cores of a manager that routes calls to MCP tool
servers, with proofs of what they keep over every run. The models follow the code, also where the code
and its documentation disagree; where a promised property does not hold, there is a run that breaks it
and a theorem that says exactly when it holds.

`dafny verify dfyconfig.toml` checks the whole project.

## What is modelled

- **Routed lifecycle** (`ServerSections`, `LifecycleMachine`, `MutationProtocol`). Each critical section
  of a server is a method that updates the server's fields in place, proved equal to a function on
  values. The machine runs these functions in every interleaving: one operation holds the server's
  token, and releases, exits, marks, ticks and shutdown come between any two of its steps. Connecting,
  closing and process exit belong to the environment. On top of it stands the two-phase configuration
  mutation over all servers, in which prepare, rollback, abort and commit are single steps too. The
  objects of the lifecycle, the tunnel and the snapshot worker go through every run of their machines
  (`Follow`), so what is proved of the runs holds of their fields.
- **Generation catalog and index build** (`CatalogModel`, `CatalogTables`, `IndexInvariant`,
  `IndexBuild`, `IndexRefresh`, `IndexEnrichment`, `Submission`, `Confluence`, `Replay`, `ToolPreparation`,
  `CapabilityPreparation`, `Fulfilment`, `IndexService`, `IndexRuns`, `Buildout`, `SearchGap`, `DirtyProtocol`). The tables are maps in an object; each transaction is a method. The
  connection carries an arbitrary number of writes and is then lost, so every operation is covered for
  every point at which it may be cut off. Fingerprints are modelled by what they identify.
- **Tool contract cache** (`ToolCache`), **routing preferences** (`RoutingPreferences`), **batching and
  embedding of long texts** (`GreedyBatches`, `EmbeddingChunks`), **manager tunnel** (`ManagerTunnel`),
  **snapshot worker** (`SnapshotWorker`), **capability hierarchy** (`CapabilityForest`), **query cache**
  (`QueryCache`), **request paging** (`RequestPaging`) and **vector storage** (`VectorCodec`).

## What does not hold as promised

- A promoted generation can fail the index-count test of every search: a refresh cut off between the two
  vectors of its last tool never declares the schema vector, so promotion does not miss it
  (`SearchGap.CutRefreshDefeatsSearch`, operation by operation). The test passes exactly if every schema vector was declared
  (`IndexInvariant.SearchCountsIff`), which a refresh that ends does (`IndexService.Refresh`).
- A refresh cut off between declaring its first member and storing it leaves a member that promotion will
  always miss, in a generation that the next refresh keeps (`SearchGap.CutRefreshLeavesStray`,
  `SearchGap.StrayStays`). A build in which every operation succeeds can be promoted exactly if there is no
  such member and nothing is dirty (`Buildout.BuildGeneration`).
- Acquire and Start read the contract flag of a session twice; a flip in between takes a running session
  away from its leases (`LifecycleMachine.FlipTakesUsedSession`). Nothing else does.
- An idle callback that fires while a mutation is prepared is lost, and after an abort the server stays up
  (`LifecycleMachine.IdleCallbackLost`). It is ignored exactly then.
- A restart that waited for the token of a server while a commit removed it leaves a running session on
  the removed server (`LifecycleMachine.RestartRevivesRemoved`), which nothing but another restart or a
  shutdown that still knows the server takes away (`LifecycleMachine.RemovedSessionIsStranded`). A removed
  server has a session only if a restart took hold of it after the removal
  (`LifecycleMachine.RemovedServersStayEmpty`).
- A restart whose connect ignores the cancelled context leaves a session on a shut server
  (`LifecycleMachine.RestartRevivesShut`). A shut server has a session only if that happened
  (`LifecycleMachine.ShutServersStayEmpty`).
- Shrinking a chunk by its overflow can jump past a length that fits, and the input is refused
  (`EmbeddingChunks.ShrinkingSkipsFit`). It is refused exactly if the lengths that are tried run out
  (`EmbeddingChunks.TakeChunk`, `EmbeddingChunks.StuckIsFinal`).
- A dirty marker equal in all fields, time included, to the one a refresh has seen is cleared with it
  (`DirtyProtocol.EqualMarkerIsLost`).
- Validation of a hierarchy trims ids and not parents, so a path may stop short
  (`CapabilityForest.BlankInIdCutsPath`).
- The limit-as-offset route of paging repeats the first page for ever when that page has one item
  (`RequestPaging.LegacyIsStuck`).
- Vectors of more than 65536 dimensions are written and cannot be read (`VectorCodec.DecodesIff`).
- Closing the tunnel before cancelling its context would leave a runtime installed
  (`ManagerTunnel.CloseBeforeCancelIsNotEnough`); the application cancels first.

## Model

| member | source | states |
|---|---|---|
| `ServerSections.ServerState.constructor` | internal/routedlifecycle/service.go:147-151 | a new server has no session, no uses, no timer and no flag set |
| `ServerSections.ServerState.CancelIdleLocked` | internal/routedlifecycle/service.go:895-902 | every cancellation raises the sequence number and leaves no timer and no deadline |
| `ServerSections.ServerState.ScheduleIdleLocked` | internal/routedlifecycle/service.go:836-861 | arms a timer for exactly the managed, running, unused and unmarked servers with a positive timeout, at last activity plus timeout |
| `ServerSections.ServerState.DropLocked` | internal/routedlifecycle/service.go:225-230 | removing a session raises the generation and cancels the timer |
| `ServerSections.ServerState.EnterAcquire` | internal/routedlifecycle/service.go:204-247 | the first section of Acquire, field by field; `AcquireMeans` says when it is let in |
| `ServerSections.ServerState.AbandonAcquire` | internal/routedlifecycle/service.go:253-278 | gives the use count back when Acquire fails |
| `ServerSections.ServerState.InstallAcquired` | internal/routedlifecycle/service.go:281-299 | installs the connected session, or gives the count back if the server changed meanwhile |
| `ServerSections.ServerState.EnterStart` | internal/routedlifecycle/service.go:506-548 | the first section of Start: refusals, removal of a stale session, and the change flag |
| `ServerSections.ServerState.Publish` | internal/routedlifecycle/service.go:576-587 | publishes the connected session of Start and Restart and arms the timer of an unused server |
| `ServerSections.ServerState.EnterStop` | internal/routedlifecycle/service.go:618-639 | Stop refuses always-on, used, marked and changing servers, and otherwise takes the session |
| `ServerSections.ServerState.EnterRestart` | internal/routedlifecycle/service.go:678-693 | Restart refuses used, marked and changing servers, and reads neither the deleted nor the closing flag |
| `ServerSections.ServerState.EnterWatch` | internal/routedlifecycle/service.go:783-800 | a watcher removes only the session and generation it watches |
| `ServerSections.ServerState.EnterIdle` | internal/routedlifecycle/service.go:870-886 | the idle callback: ignored unless everything it was armed with still holds, re-armed before the deadline, otherwise it takes the session |
| `ServerSections.ServerState.EnterCommit` | internal/routedlifecycle/service.go:1006-1019 | a commit takes the session of a marked server and gives it its new entry or deletes it |
| `ServerSections.ServerState.FinishCommit` | internal/routedlifecycle/service.go:1029-1037 | a settled commit clears the change flag and the mark |
| `ServerSections.ServerState.FinishChange` | internal/routedlifecycle/service.go:648-653 | the last section of Stop, the idle callback and a failed Start clears the change flag and notes the activity |
| `ServerSections.ServerState.FinishChanging` | internal/routedlifecycle/service.go:695-716 | a failed Restart clears the change flag and nothing else |
| `ServerSections.ServerState.EnterShutdown` | internal/routedlifecycle/service.go:1104-1113 | shutdown takes the session of a server |
| `ServerSections.ServerState.Release` | internal/routedlifecycle/service.go:389-399 | a release lowers the count and arms the timer when it reaches zero |
| `ServerSections.ServerState.MarkForMutation` | internal/routedlifecycle/service.go:928-941 | marks a server for a mutation exactly if it is neither deleted, used, marked nor changing |
| `ServerSections.AcquireMeans` | internal/routedlifecycle/service.go:204-247 | Acquire is let in exactly on servers that are there, not engaged, not disabled and not held back, on a manual one only if its session serves; what it gets, and what every refusal says |
| `ServerSections.StartMeans` | internal/routedlifecycle/service.go:506-548 | the same for Start, which leaves a session that serves alone |
| `ServerSections.StopMeans` | internal/routedlifecycle/service.go:618-639 | Stop takes the session of exactly the unused servers that are there, not engaged and not always on |
| `ServerSections.RestartMeans` | internal/routedlifecycle/service.go:678-693 | Restart takes the session of exactly the unused servers that are not engaged |
| `ServerSections.WatchMeans` | internal/routedlifecycle/service.go:783-800 | a watcher removes its session exactly if the server still has it in the same generation |
| `ServerSections.MarkMeans` | internal/routedlifecycle/service.go:928-941 | a prepare marks exactly the servers that are there, unused and not engaged |
| `ServerSections.PublishMeans` | internal/routedlifecycle/service.go:576-587 | a published session is installed in a new generation and the change is over |
| `ServerConfig.IdleTimeoutMeans` | internal/routedlifecycle/service.go:836-848 | the timeout is the server's own or else the default; a negative one means never |
| `LifecycleMachine.StepKeeps` | internal/routedlifecycle/service.go:191-399 | each of the 23 kinds of step, at any point of the operation that holds the token, keeps the whole invariant |
| `LifecycleMachine.RunKeeps` | internal/routedlifecycle/service.go:191-902 | the invariant holds in every state of every run |
| `LifecycleMachine.StepKeepsRight` | internal/routedlifecycle/service.go:191-902 | every step also keeps: the installed session belongs to the server's entry, modes are respected, a commit has given its entry, and the timer waits the whole timeout |
| `LifecycleMachine.RunIsRight` | internal/routedlifecycle/service.go:191-902 | all of this holds in every state of every run |
| `LifecycleMachine.SessionBelongsToEntry` | internal/routedlifecycle/service.go:1058-1078 | in every run the installed session was connected with an entry that agrees with the server's in name, mode, transport, environment and runtime |
| `LifecycleMachine.ModesAreRespected` | internal/routedlifecycle/service.go:215-236 | over every run Acquire connects neither manual nor disabled servers, nothing is granted on a disabled one, and a session appears on a manual server only through Start or Restart |
| `LifecycleMachine.SessionLeavesForReason` | internal/routedlifecycle/service.go:613-693 | a session is taken away only by the first section of an operation, for the listed reasons: Stop never on an always-on server, the idle callback only on a managed unused one past its deadline |
| `LifecycleMachine.ArmingIsExact` | internal/routedlifecycle/service.go:836-861 | a timer that is set runs from the last activity for exactly the configured timeout |
| `LifecycleMachine.IdleStopWaits` | internal/routedlifecycle/service.go:863-893 | in every run an idle callback stops a server only when its whole timeout has passed since every start and release before |
| `LifecycleMachine.UseCountIsExact` | internal/routedlifecycle/service.go:199-302 | in every interleaving the use count is the number of unreleased leases plus releases and Acquire calls under way; a marked server has none, and a runtime change happens only under the token |
| `LifecycleMachine.GuardsNeverFire` | internal/routedlifecycle/service.go:252-299 | no decrement is ever skipped by its guard, the re-check after connect never fires, and no lease is granted on a marked server |
| `LifecycleMachine.ReleaseCountsOnce` | internal/routedlifecycle/service.go:338-399 | a lease is counted down once, however often its holder and its task timer release it |
| `LifecycleMachine.LeasedSessionsSurvive` | internal/routedlifecycle/service.go:215-247 | until shutdown reaches the server, the session of an unreleased lease is installed or has exited, unless the contract flag flipped between its two readings |
| `LifecycleMachine.SessionsClosedOnce` | internal/routedlifecycle/service.go:225-300 | a session is closed at most once, and exactly once when neither the server, the token holder nor a watcher is responsible for it |
| `LifecycleMachine.OneRunningSession` | internal/routedlifecycle/service.go:528-590 | a server never has two sessions that run and are not closed |
| `LifecycleMachine.ShutServersStayEmpty` | internal/routedlifecycle/service.go:1080-1131 | after its shutdown section a server has no session, unless a restart connected although the context had been cancelled before |
| `LifecycleMachine.RemovedServersStayEmpty` | internal/routedlifecycle/service.go:1006-1037 | in every run a removed server has no lease, no timer and no grant under way, and a session only if a restart took hold of it after the removal |
| `LifecycleMachine.IdleTimerIsSound` | internal/routedlifecycle/service.go:836-902 | an armed timer has an installed session and no lease; while no callback was ignored, every idle managed server has one due |
| `LifecycleMachine.IdleStopsOwnSession` | internal/routedlifecycle/service.go:863-893 | a callback that stops a server is the current one, past its deadline, and closes the session it was armed for |
| `LifecycleMachine.CancelledCallbackIgnored` | internal/routedlifecycle/service.go:871-880 | the callback of a cancelled arming changes nothing |
| `LifecycleMachine.CurrentCallbackIgnoredIff` | internal/routedlifecycle/service.go:871-880 | the callback of the current arming is ignored exactly while a mutation has the server marked |
| `LifecycleMachine.CurrentCallbackStopsIff` | internal/routedlifecycle/service.go:871-886 | the callback of the current arming stops an unmarked server exactly if its deadline has come, and is armed again before |
| `LifecycleMachine.StaleCloseMayFail` | internal/routedlifecycle/service.go:245-250 | an Acquire or Start that removed a stale session connects whether or not the session could be closed |
| `LifecycleMachine.FailedCloseEndsRestart` | internal/routedlifecycle/service.go:694-704 | a restart connects exactly if the old session was closed; otherwise it leaves the server without a session, which was closed once, and free for the next operation |
| `LifecycleMachine.HistoryIsExact` | internal/routedlifecycle/service.go:220-230 | the four exceptions (flag flip, late restart, lost callback, restart of a removed server) come about in exactly the stated ways |
| `LifecycleMachine.HistoryOfRun` | internal/routedlifecycle/service.go:191-902 | in every run an exception is on record exactly if an earlier step brought it about |
| `LifecycleMachine.FlipTakesUsedSession` | internal/routedlifecycle/service.go:220-230 | a run from a new server in which a flip between the two readings takes a running session away from its lease |
| `LifecycleMachine.IdleCallbackLost` | internal/routedlifecycle/service.go:871-880 | a run from a new server in which a callback that fires between prepare and abort is lost, and the idle server stays up |
| `LifecycleMachine.RestartInstallsAnyway` | internal/routedlifecycle/service.go:678-734 | from every state in which a restart has the token of a removed server, or of an unused one that was shut, it can go on to install a session |
| `LifecycleMachine.RestartRevivesRemoved` | internal/routedlifecycle/service.go:656-734 | a run from a new server in which a restart installs a session after a commit removed the server; it is running, not closed and has no timer |
| `LifecycleMachine.RemovedSessionIsStranded` | internal/routedlifecycle/service.go:783-800 | every step but the first section of another restart or of shutdown leaves the session of a removed server installed |
| `LifecycleMachine.RestartRevivesShut` | internal/routedlifecycle/service.go:656-734 | a run from a new server in which a restart installs a session after the server's shutdown |
| `LifecycleMachine.Follow` | internal/routedlifecycle/service.go:199-947 | the server object, driven section by section, has in every state of every run the fields of the machine |
| `MutationProtocol.MoveKeeps` | internal/routedlifecycle/service.go:904-1046 | every step of prepare, rollback, abort and commit, and every step on a server in between, keeps the service's books and the servers' marks in agreement |
| `MutationProtocol.SvcRunKeeps` | internal/routedlifecycle/service.go:904-1046 | that agreement, and the invariant of every server, hold in every run of the service |
| `MutationProtocol.MarksAreExact` | internal/routedlifecycle/service.go:904-961 | in every run exactly the servers that a mutation has on its books are marked, all of them free of leases; with none on the books nobody is marked, so failure, abort and commit restore every flag |
| `MutationProtocol.PrepareIsAllOrNothing` | internal/routedlifecycle/service.go:904-947 | a prepare that succeeds has marked exactly the servers in the table that the new configuration drops or changes in name, mode, transport, environment or runtime |
| `MutationProtocol.NoLeaseWhileReserved` | internal/routedlifecycle/service.go:904-947 | no lease is granted on a server between its mark and the end of the mutation |
| `MutationProtocol.CommitReachesGoal` | internal/routedlifecycle/service.go:963-1046 | once a commit has settled, the table is keyed by the configuration it committed, if prepare was given the ids really in it |
| `MutationProtocol.RemovalCanFinish` | internal/routedlifecycle/service.go:1023-1033 | a commit takes the id of a removed server out of the table, no other, and can then settle the removal |
| `MutationProtocol.SessionsRunCommittedConfig` | internal/routedlifecycle/service.go:963-1046 | in every run a session was connected with the runtime its server's entry names; when no commit is at work every server in the table has the entry of the configuration last committed, as far as its runtime goes, if every prepare was given the one before |
| `MutationProtocol.NoOldSessionSurvives` | internal/routedlifecycle/service.go:1005-1037 | when a commit unmarks a server, every session the server ever had is closed or has exited |
| `CatalogModel.TxKeepsActive` | internal/catalog/generations.go:237-282 | every transaction keeps at most one generation active, and every promoted one passes the tests of promotion with the content it has |
| `CatalogModel.TxExtends` | internal/catalog/enrichment.go:269-335 | every transaction only extends the catalog: frozen content, status that moves one way, immutable batches, write-once responses |
| `CatalogModel.RunsKeepActive` | internal/catalog/generations.go:237-282 | both hold after every sequence of transactions |
| `CatalogModel.RunsExtend` | internal/catalog/generations.go:125-235 | over every sequence of transactions the content of a generation never changes after it left staging, and an accepted response never changes |
| `CatalogModel.CreateMeans` | internal/catalog/generations.go:49-73 | a generation is begun exactly under a new id with a routing state, empty and in staging |
| `CatalogModel.ReconcileMeans` | internal/catalog/generations.go:116-123 | exactly the staging generations of other routing states are retired |
| `CatalogModel.SupersedeMeans` | internal/catalog/dirty_reconciliation.go:42-72 | one staging generation is retired and nothing else changes |
| `CatalogModel.DeclareMemberMeans` | internal/catalog/generations.go:125-138 | a declared member is complete exactly if it was and what is stored is what is expected now |
| `CatalogModel.StoreSourceMeans` | internal/catalog/generations.go:140-168 | a source is stored for a declared member only, whose row then says what was stored |
| `CatalogModel.AcceptMeans` | internal/catalog/enrichment.go:269-335 | a response is accepted exactly for an open batch of a staging generation, or of an active one if it is a review, and again if it is the one accepted before |
| `CatalogModel.PutBatchesMeans` | internal/catalog/enrichment.go:118-190 | batches are inserted all or none, and exactly if they go to staging generations and none names other work under a known id |
| `CatalogModel.PromoteMeans` | internal/catalog/generations.go:237-282 | exactly a ready staging generation of the routing state is promoted while nothing is dirty; the active one is retired and no other changes |
| `CatalogTables.Catalog.PutGeneration` | internal/catalog/generations.go:49-73 | creates a staging generation, or refuses a missing argument or an id in use |
| `CatalogTables.Catalog.Reconcile` | internal/catalog/generations.go:116-123 | supersedes exactly the staging generations of other routing states |
| `CatalogTables.Catalog.Supersede` | internal/catalog/dirty_reconciliation.go:42-72 | supersedes one staging generation and nothing else |
| `CatalogTables.Catalog.RequireSourceTool` | internal/catalog/generations.go:125-138 | declares a member; it stays complete only if what was stored is what is expected now |
| `CatalogTables.Catalog.PutSourceTool` | internal/catalog/generations.go:140-168 | stores a declared source and marks the member complete |
| `CatalogTables.Catalog.Require` | internal/catalog/generations.go:170-183 | declares a requirement; it stays complete only if what fulfilled it is what is expected now |
| `CatalogTables.Catalog.Satisfy` | internal/catalog/generations.go:185-194 | records what fulfils a declared requirement |
| `CatalogTables.Catalog.Attach` | internal/catalog/artifacts.go:148-174 | attaches an artifact to a slot of a staging generation |
| `CatalogTables.Catalog.PutLexicalRecord` | internal/catalog/lexical.go:18-40 | stores a lexical record in a staging generation |
| `CatalogTables.Catalog.StoreArtifact` | internal/catalog/artifacts.go:39-110 | storing an artifact again changes nothing |
| `CatalogTables.Catalog.FindReusableArtifact` | internal/catalog/required_artifacts.go:87-133 | finds an artifact exactly if one with this identity is stored, and what it finds is stored and has this identity |
| `CatalogTables.Catalog.PutEnrichmentBatches` | internal/catalog/enrichment.go:118-190 | inserts batches all or none, keeps those that exist, and refuses an id that names other work |
| `CatalogTables.Catalog.AcceptEnrichmentBatch` | internal/catalog/enrichment.go:269-335 | accepts a response once, repeats the same one without effect and refuses another; reviews also on an active generation |
| `CatalogTables.Catalog.Mark` | internal/catalog/generations.go:207-215 | writes or replaces a dirty marker |
| `CatalogTables.Catalog.ClearIfUnchanged` | internal/catalog/dirty_reconciliation.go:13-35 | removes a marker only if it is still the one given |
| `CatalogTables.Catalog.PromoteGeneration` | internal/catalog/generations.go:237-282 | promotes exactly a complete staging generation of the current routing state while nothing is dirty, and supersedes the active one |
| `IndexInvariant.IndexedAll` | internal/retrieval/store.go:147-164 | a vector index has as many entries as there are sources exactly if every source has one |
| `IndexInvariant.ReadyContentCounts` | internal/discovery/service.go:195-197 | for content that passed promotion and was reconciled, the four index counts match exactly if every schema vector was declared |
| `IndexInvariant.SearchCountsIff` | internal/discovery/service.go:195-197 | a promoted generation whose capability batch was prepared over some sources passes the completeness test of a search exactly if every schema vector was declared |
| `IndexBuild.FulfillIn` | internal/catalog/required_artifacts.go:135-179 | attach and satisfy keep the index sound also when cut in between: a satisfied requirement always has a matching artifact |
| `IndexBuild.EnsureEmbedding` | internal/retrieval/ensure.go:13-37 | declares the vector of a text and fulfils it with a stored or a new one; the index is sound wherever it stops, and the state is that after some of the listed writes |
| `IndexBuild.StoreLexical` | internal/retrieval/store.go:127-145 | stores the given text as lexical record and fulfils its requirement |
| `IndexBuild.PopulateTool` | internal/indexing/dirty_reconciliation.go:186-217 | gives a source its contract, lexical record and both vectors, in this order and each for its part of the projected contract; the state is always that after some of these writes |
| `IndexRefresh.BasedIsIndexed` | internal/retrieval/store.go:35-58 | the lexical record and artifact and the description and schema vectors of every populated source are those of the texts that its own contract projects to |
| `IndexRefresh.CurrentSourceFingerprints` | internal/indexing/dirty_reconciliation.go:149-171 | computes the exposed tools of all enabled servers, or fails exactly if a snapshot is missing |
| `IndexRefresh.SourcesExactly` | internal/indexing/dirty_reconciliation.go:149-171 | a tool is a current source exactly if an enabled server with a snapshot lists it and exposes it, and the last listing gives its contract |
| `IndexRefresh.HiddenIsNoSource` | internal/indexing/dirty_reconciliation.go:149-171 | a tool that every entry of its server hides is no source |
| `IndexRefresh.SourcesChanged` | internal/indexing/dirty_reconciliation.go:121-147 | reports a change exactly if the generation has sources and they differ from the current ones as maps |
| `IndexRefresh.PopulateServer` | internal/indexing/dirty_reconciliation.go:173-219 | adds exactly the tools that one server lists |
| `IndexService.Populate` | internal/indexing/dirty_reconciliation.go:173-219 | adds exactly what the snapshots show, and fails if a snapshot is missing |
| `IndexService.OpenGeneration` | internal/indexing/dirty_reconciliation.go:58-84 | keeps the staging generation of the routing state exactly if it has no sources or unchanged ones, and otherwise supersedes it and begins a new one |
| `IndexService.ClearObserved` | internal/indexing/dirty_reconciliation.go:221-242 | clears exactly the observed markers of rebuilt or unused servers that are still the same |
| `IndexService.RemainingMeans` | internal/indexing/dirty_reconciliation.go:221-242 | of the markers seen, exactly those of servers go that are rebuilt or not in use, if they are unchanged |
| `IndexService.Refresh` | internal/indexing/dirty_reconciliation.go:41-100 | keeps the index sound wherever it stops; when it succeeds the staging generation has exactly the current sources, each indexed by the texts of its contract, no other is left, and only unchanged markers were cleared |
| `ToolPreparation.PrepareToolEnrichment` | internal/enrichment/prepare.go:14-149 | when it succeeds for the first time, every source has its description vector, the writes of the preparation have been made, and the sources without stored guidance, and no others, are handed out in greedy batches; later it has repaired the accepted batches; wherever it fails, some of these writes were made and no batch was added |
| `ToolPreparation.PrepareSources` | internal/enrichment/prepare.go:64-110 | the state is that after some of the listed writes, tool by tool; it collects exactly the sources for whose contract no guidance is stored, each once |
| `ToolPreparation.PrepareTool` | internal/enrichment/prepare.go:85-110 | guidance and gate are declared for the tool's contract, and stored guidance leads to the vector of its payload; the state is always that after some of these writes |
| `ToolPreparation.MakeToolBatches` | internal/enrichment/prepare.go:112-149 | the batches that are added hold exactly the collected work, cut greedily; none is added on failure |
| `ToolPreparation.RepairToolBatches` | internal/enrichment/repair.go:10-24 | wherever it stops it has only made attempts at the accepted submissions; if it succeeds, the state is the one in which every complete history of these submissions ends, however they had been cut off before |
| `CapabilityPreparation.RepairCapabilityBatch` | internal/enrichment/repair.go:10-24 | the same for the accepted capability submission |
| `CapabilityPreparation.PrepareCapabilityReconciliation` | internal/enrichment/prepare.go:151-257 | a capability batch appears only over all sources, each with guidance, while no tool batch is pending, by the listed writes and with a stored hierarchy accepted at once; if an accepted one exists, it is repaired |
| `CapabilityPreparation.MakeCapabilityBatch` | internal/enrichment/prepare.go:180-241 | the capability batch is prepared over all sources, each with its guidance attached |
| `CapabilityPreparation.SubmitCapabilityBatch` | internal/enrichment/submit.go:117-203 | the state is always that after some of the submission's six writes: none if it is refused, all if it succeeds on a staging generation, unchanged on a built one |
| `IndexService.Commit` | internal/indexing/service.go:297-326 | a commit that succeeds has made the generation active, with its hash, no dirty marker and no required batch pending |
| `IndexRuns.Drive` | internal/indexing/service.go:220-326 | after any sequence of operations, each cut off anywhere, at most one generation is active, satisfied requirements have matching artifacts, promoted reconciled generations pass the search test exactly if all schema vectors were declared, and the requirement rows are such that answering what is handed out fulfils them |
| `IndexRuns.CompleteRefreshIsSearchable` | internal/discovery/service.go:195-197 | after a refresh that was not cut off, enrichment and promotion give a generation that passes the search test |
| `SearchGap.CutRefreshDefeatsSearch` | internal/indexing/dirty_reconciliation.go:206-217 | a refresh cut off before it declares the schema vector of its last tool, then preparation, submission, reconciliation and promotion, each with its own writes, end in a sound index whose active generation fails the search test |
| `SearchGap.CutRefreshLeavesStray` | internal/indexing/dirty_reconciliation.go:186-199 | a refresh cut off after its third write leaves a declared member without source in a staging generation without sources |
| `SearchGap.StrayStays` | internal/catalog/generations.go:254-262 | no later transaction takes a declared member away, and promotion is refused as long as it is no source |
| `IndexEnrichment.CheckAnswers` | internal/enrichment/submit.go:40-74 | accepts exactly one answer for each tool asked for and for no other, each with a purpose and known alternatives |
| `IndexEnrichment.GuideTool` | internal/enrichment/submit.go:92-112 | writes guidance, enriched vector and gate of one tool; the state is always that after some of the eight writes |
| `IndexEnrichment.GuidancesMean` | internal/enrichment/submit.go:40-56 | when no tool is answered twice, each has the guidance it was given |
| `Submission.SubmitToolBatch` | internal/enrichment/submit.go:31-115 | the state is always that after some number of the submission's writes: none if the answers are refused, all if it succeeds on a staging generation, unchanged on a built one |
| `Confluence.Diamond` | internal/catalog/required_artifacts.go:135-179 | two writes that agree and are both possible can be made in either order, with the same result |
| `Confluence.RerunReachesSame` | internal/enrichment/repair.go:10-24 | writes that agree with each other, cut off anywhere and run again from the start, end where the uninterrupted run ends |
| `Confluence.SameWritesSameState` | internal/enrichment/repair.go:10-24 | two runs that make the same agreeing writes, in any order and any number of times, end in the same state |
| `Replay.SubmissionIsCoherent` | internal/enrichment/submit.go:92-112 | the writes of a submission never undo each other |
| `Replay.PlanIsCoherent` | internal/enrichment/submit.go:92-112 | the writes of submissions to different batches of a generation never undo each other |
| `Replay.SameWritesLater` | internal/enrichment/submit.go:263-288 | whatever attempts were made meanwhile, a submission that starts again computes the same writes, the enriched vectors included |
| `Replay.CompleteHistoriesAgree` | internal/enrichment/submit.go:79-114 | all histories of attempts at the submissions of a generation in which each got through once end in the same state |
| `Replay.RepairReachesEnd` | internal/enrichment/repair.go:10-24 | submissions to any number of batches, each cut off anywhere and any number of times, and then all made again, end where every complete history of them ends |
| `Replay.CrashThenRepair` | internal/enrichment/submit.go:79-114 | the case of one batch: cut off after any number of writes and submitted again it reaches the uninterrupted state, and repeating a finished one changes nothing |
| `Replay.CapabilityCrashThenRepair` | internal/enrichment/submit.go:145-203 | a capability submission, with its review batches, artifact and gate, cut off anywhere and made again ends where the uninterrupted one ends |
| `Replay.CapabilityCutAgain` | internal/enrichment/submit.go:145-203 | cut off and made again, cut off or not, a capability submission has come as far as the longer of the two attempts |
| `Fulfilment.ListKeepsRows` | internal/catalog/generations.go:170-194 | a list of writes that declares requirements of sources only and satisfies gates as expected keeps the requirement rows right |
| `Fulfilment.CutKeepsRows` | internal/enrichment/submit.go:92-112 | so does a tool submission, wherever it is cut off |
| `Fulfilment.PreparesKeepsRows` | internal/enrichment/prepare.go:64-149 | so does a preparation wherever it stops, and when it succeeds every source is asked for or enriched |
| `Fulfilment.ReconcilingKeepsRows` | internal/enrichment/prepare.go:151-257 | so does the preparation of the capability batch |
| `Fulfilment.AnswersAreAttached` | internal/enrichment/submit.go:92-112 | after a submission that got through, each tool has what the agent said about it, for the contract asked about, and the vector of the text this makes |
| `Fulfilment.WholeCapabilityFulfils` | internal/enrichment/submit.go:145-203 | a capability submission that got through attaches its hierarchy and fulfils what was declared for it |
| `Fulfilment.ProposalsAreHandedOut` | internal/enrichment/submit.go:233-262 | a capability submission that got through has a review batch, not required, for every proposal, and no other new work |
| `Buildout.BuiltIsPromotableIff` | internal/catalog/generations.go:254-273 | when all sources are enriched and the hierarchy is fulfilled every requirement is as expected, and promotion is refused only for a dirty marker or a declared member that is no source |
| `Buildout.BuildGeneration` | internal/indexing/service.go:220-326 | from any sound catalog, a refresh, an answer to every tool batch and to the capability batch, all successful, end in a generation with every requirement as expected, every source indexed by its texts and no required batch pending, which can be promoted exactly if nothing is dirty and every declared member is a source |
| `DirtyProtocol.EventsAreTransactions` | internal/catalog/generations.go:207-252 | the events of the marker protocol are the catalog's transactions |
| `DirtyProtocol.MarkerIsSeenBeforePromotion` | internal/indexing/dirty_reconciliation.go:46-93 | a marker that differs from what the refresh under way saw blocks every promotion until a later refresh has seen it or its replacement |
| `DirtyProtocol.MarkerSurvives` | internal/catalog/dirty_reconciliation.go:13-35 | until then it stays in the table, unchanged unless marked again |
| `DirtyProtocol.EqualMarkerIsLost` | internal/catalog/dirty_reconciliation.go:20-27 | the exception: a marker equal in all fields to the one seen is cleared with it |
| `ToolCache.Cache.ObserveServerTools` | internal/catalog/tool_cache.go:85-295 | one observation: errors, seeding from staging and active, canonical contracts, availability of every cached tool, and both verdicts, whose meaning the lemmas below give |
| `ToolCache.Cache.StoreObserved` | internal/catalog/tool_cache.go:235-275 | the loop over listed tools stores each in canonical form and reports changes of meaning and arrivals |
| `ToolCache.Cache.WithdrawMissing` | internal/catalog/tool_cache.go:277-290 | the loop over cached tools withdraws exactly those not listed |
| `ToolCache.Cache.ToolAvailability` | internal/catalog/tool_cache.go:342-360 | unknown if never cached, unavailable if the bytes differ, and otherwise as last observed |
| `ToolCache.ObservationSettles` | internal/catalog/tool_cache.go:238-251 | observing a tool fixes the bytes that its meaning is stored as |
| `ToolCache.BytesAreStable` | internal/catalog/tool_cache.go:235-290 | over every sequence of observations with the same meaning, or without the tool, its bytes stay the same and no change is reported for it |
| `ToolCache.NoSemanticChange` | internal/catalog/tool_cache.go:253-255 | such observations report no semantic change at all |
| `ToolCache.SemanticChangeMeans` | internal/catalog/tool_cache.go:238-257 | a semantic change is reported exactly if the server has a baseline and lists a tool of which neither the cache nor the active nor the staging generation has a contract of equal meaning |
| `ToolCache.ListedAreAvailable` | internal/catalog/tool_cache.go:258-290 | after an observation exactly the listed tools are available |
| `ToolCache.AvailabilityChangeMeans` | internal/catalog/tool_cache.go:258-290 | a change of availability is reported exactly if other tools were available after seeding than are listed |
| `ToolCache.ObservationKeeps` | internal/catalog/tool_cache.go:129-155 | every tool known before is kept, with what was cached, or else the staging contract, or else the active one, unless it is listed; a listed one has the meaning listed |
| `ToolCache.AvailabilityMeans` | internal/catalog/tool_cache.go:342-360 | a tool never cached counts as available, a cached one if it was listed last time with exactly this contract |
| `ToolCache.ListingMeans` | internal/catalog/tool_cache.go:91-104 | a list is accepted exactly if its names are neither blank nor repeated |
| `ToolCache.ActiveAvailability` | internal/catalog/tool_cache.go:342-360 | after any observation an active tool is reported available exactly if an equivalent contract was listed |
| `RoutingPreferences.Store.NormalizeRule` | internal/routingprefs/rules.go:120-178 | the loops and tests of normalization, whose meaning `NormalizationMeans` gives |
| `RoutingPreferences.CollectTargets` | internal/routingprefs/rules.go:180-202 | puts targets into canonical form, or refuses incomplete and repeated ones |
| `RoutingPreferences.CanonicalTargets` | internal/routingprefs/rules.go:180-202 | targets have a canonical form exactly if each names server, tool and assumption and none names what another does, and it maps a server and tool to an assumption exactly if a target trims to them |
| `RoutingPreferences.NormalizationMeans` | internal/routingprefs/rules.go:120-178 | a rule is refused exactly for a blank subject, a condition that does not fit, no preferred target, a bad target or one on both sides; otherwise it says what the caller wrote, trimmed, with each target on its side |
| `RoutingPreferences.Store.PutRule` | internal/routingprefs/rules_write.go:12-98 | adds a rule in force, or sends it and all its rivals to review; repeats change nothing, and a stale revision is refused |
| `RoutingPreferences.Store.ConfirmRule` | internal/routingprefs/rules_write.go:100-153 | puts a rule in force only if it has no rival |
| `RoutingPreferences.Store.DeleteRule` | internal/routingprefs/rules_write.go:155-193 | deletes one rule at the expected revision |
| `RoutingPreferences.Store.PutProfile` | internal/routingprefs/profiles.go:15-76 | stores a profile at the expected revision, with a name no other profile has |
| `RoutingPreferences.Store.DeleteProfile` | internal/routingprefs/profiles.go:78-116 | deletes a profile and all its rules |
| `RoutingPreferences.Store.ReconcileTargets` | internal/routingprefs/rules.go:67-118 | sends exactly the rules in force with a changed target back to review |
| `RoutingPreferences.OpKeepsSound` | internal/routingprefs/rules_write.go:60-76 | every operation keeps: a rule in force has no rival, a rule of a profile names an existing one, and profile names are unique |
| `RoutingPreferences.RunsKeepSound` | internal/routingprefs/rules_write.go:12-193 | so does every sequence of operations |
| `RoutingPreferences.RevisionCountsChanges` | internal/routingprefs/rules.go:246-259 | the revision moves by one, modulo 2^64, exactly when something changes, and nothing changes without it |
| `RoutingPreferences.WritersExcludeEachOther` | internal/routingprefs/rules_write.go:50-52 | two writes with the same expected revision that both change the store have at least 2^64 changes from one to the other |
| `RoutingPreferences.OneEffectiveRulePerSlot` | internal/routingprefs/rules.go:37-65 | at most one rule is effective for each slot |
| `RoutingPreferences.PutRuleRefuses` | internal/routingprefs/rules_write.go:12-52 | when a rule is refused, and that nothing changes then |
| `RoutingPreferences.PutRuleMeans` | internal/routingprefs/rules_write.go:53-98 | an accepted rule is stored as written; if none competes it applies, globally or for its profile only, and otherwise neither it nor its competitors do; no other rule changes |
| `RoutingPreferences.ConfirmRuleMeans` | internal/routingprefs/rules_write.go:100-153 | a rule is put in force exactly if it has no competitor; no other rule changes |
| `RoutingPreferences.DeleteRuleMeans` | internal/routingprefs/rules_write.go:155-193 | this rule is deleted at the expected revision, and no other |
| `RoutingPreferences.PutProfileMeans` | internal/routingprefs/profiles.go:15-76 | when a profile is stored, under which id and with which name |
| `RoutingPreferences.DeleteProfileMeans` | internal/routingprefs/profiles.go:78-116 | a deleted profile is gone with exactly the rules that belong to it |
| `RoutingPreferences.ReconcileMeans` | internal/routingprefs/rules.go:67-118 | a rule in force goes to review exactly if a target of it, on either side, is gone or has another assumption |
| `GreedyBatches.GreedyIsFewest` | internal/embedding/local.go:283-307 | for a capacity that parts of a fitting batch also meet, a greedy batching uses as few batches as any other |
| `GreedyBatches.TakeBatch` | internal/enrichment/prepare.go:113-134 | shrinking from the largest size finds the longest request that fits, or shows that a single item does not |
| `GreedyBatches.SplitWork` | internal/enrichment/prepare.go:112-144 | the batches are contiguous, non-empty, within both bounds and greedy, or an item is named that does not fit alone |
| `GreedyBatches.SplitIsFewest` | internal/enrichment/prepare.go:112-144 | with an encoding that grows with the work, the splitter uses the fewest batches |
| `EmbeddingChunks.TakeChunk` | internal/embedding/local.go:240-272 | shrinking by the overflow ends with the first stretch tried that fits; it reports an unchunkable input exactly if the lengths run out, and a failed oracle exactly if one of the calls fails |
| `EmbeddingChunks.OneOutcome` | internal/embedding/local.go:240-272 | a stretch has one outcome: one end, or stuck, or a failed call |
| `EmbeddingChunks.PrepareSegments` | internal/embedding/local.go:187-281 | each input becomes itself or chunks that cover its tokens in order, each a request within the limit; every error names its cause, and a tokenizer that returns and keeps every stretch it has room for within the limit is enough for success |
| `EmbeddingChunks.StuckIsFinal` | internal/embedding/local.go:240-272 | an input that is reported unchunkable has no chunks of the form the code makes |
| `EmbeddingChunks.ShrinkingSkipsFit` | internal/embedding/local.go:260-266 | an input that is refused although each of its tokens alone would fit |
| `EmbeddingChunks.ChunksPartition` | internal/embedding/local.go:232-278 | put together in order, the stretches of an over-long input are its tokens |
| `EmbeddingChunks.ChunkTexts` | internal/embedding/local.go:243-248 | no stretch is empty, and each segment has the text of its stretch |
| `EmbeddingChunks.RequestsWithin` | internal/embedding/local.go:220-230 | every segment is a request within the context limit |
| `EmbeddingChunks.SegmentBatches` | internal/embedding/local.go:283-307 | the batches preserve order, respect the limit and are greedy |
| `EmbeddingChunks.BatchWithin` | internal/embedding/local.go:283-307 | every batch is within the token limit, also one of a single segment |
| `EmbeddingChunks.BatchesAreFewest` | internal/embedding/local.go:283-307 | no grouping of the segments in order uses fewer requests |
| `EmbeddingChunks.CollectBatches` | internal/embedding/local.go:128-154 | whatever the batch boundaries, an input with one segment gets its vector and any other the token-weighted sum of its segments' vectors |
| `EmbeddingChunks.WeightsAddUp` | internal/embedding/local.go:145-149 | the weights of an input's chunks add up to the number of its tokens |
| `EmbeddingChunks.EqualVectorsSum` | internal/embedding/local.go:128-154 | if all chunks of an input have the same vector, its weighted sum is that vector times their weight, and other inputs do not count |
| `QueryCache.Cache.Get` | internal/embedding/cache.go:40-54 | a hit returns a fresh copy and moves the entry to the front |
| `QueryCache.Cache.Put` | internal/embedding/cache.go:56-79 | stores a copy in front, replaces an entry of the same key, and drops the last one if there is no room; map and list stay in bijection |
| `QueryCache.HoldsMostRecentlyUsed` | internal/embedding/cache.go:40-79 | after any history the cache holds exactly the most recently used keys, in that order, up to its capacity |
| `QueryCache.HitsAreLastPut` | internal/embedding/cache.go:40-79 | a hit is always the vector last stored under the key |
| `QueryCache.StoreThenChange` | internal/embedding/cache.go:61-66 | a caller that overwrites the array it stored, with any values, does not change the cache |
| `QueryCache.FetchThenChange` | internal/embedding/cache.go:51-53 | a caller that overwrites an array it was given, with any values, does not change the cache |
| `Text.TrimMeans` | internal/enrichment/helpers.go:127-128 | trimming takes away white space at both ends, all of it, and nothing else |
| `ManagerTunnel.ProductRuntime.BeginRestart` | internal/app/v2_product.go:117-123 | a restart takes the runtime and begins a new generation |
| `ManagerTunnel.ProductRuntime.Install` | internal/app/v2_product.go:189-201 | a runtime is installed only for the current generation and an uncancelled context |
| `ManagerTunnel.ProductRuntime.SetStatus` | internal/app/v2_product.go:207-213 | a latecomer cannot set the status |
| `ManagerTunnel.ProductRuntime.Disconnected` | internal/app/v2_product.go:223-238 | a watcher drops only the runtime it watches, in its own generation |
| `ManagerTunnel.ProductRuntime.Close` | internal/app/v2_product.go:78-95 | shutdown takes the runtime and begins a new generation |
| `ManagerTunnel.StatusesMean` | internal/app/v2_product.go:78-258 | what each section reports, and when installation and disconnection take effect |
| `ManagerTunnel.RetryMeans` | internal/app/v2_product.go:240-258 | a retry leads to a restart exactly if its generation is current, nothing is installed and the context is alive |
| `ManagerTunnel.StepKeeps` | internal/app/v2_product.go:113-258 | every step of every restart, watcher, retry and shutdown keeps the invariant |
| `ManagerTunnel.EveryRuntimeIsAccountedFor` | internal/app/v2_product.go:113-258 | in every run a started runtime is held by its starter, installed or at its end, which is final; it is stopped once exactly if a restart, shutdown or its starter took it |
| `ManagerTunnel.InstalledBelongsToGeneration` | internal/app/v2_product.go:189-201 | in every state of every run the installed runtime was started and then installed in the current generation, before any cancellation, and neither a restart nor shutdown came since; until cancellation its watcher is there |
| `ManagerTunnel.Follow` | internal/app/v2_product.go:78-258 | the object, driven step by step, has in every state of every run the tunnel of the model |
| `ManagerTunnel.NothingSurvivesShutdown` | internal/app/v2_product.go:78-95 | the status is ready exactly while a runtime is installed, and after cancellation and then shutdown none is |
| `ManagerTunnel.CloseBeforeCancelIsNotEnough` | internal/app/v2_product.go:113-123 | a run in which shutdown before cancellation leaves a runtime installed |
| `SnapshotWorker.AsyncState.Refresh` | cmd/tunnel-manager/desktop_v2_async.go:296-315 | a request during a load sets the dirty flag, any other begins a load |
| `SnapshotWorker.AsyncState.Ensure` | cmd/tunnel-manager/desktop_v2_async.go:263-284 | a request for a recent snapshot begins a load only if one is due and none is under way |
| `SnapshotWorker.AsyncState.Finish` | cmd/tunnel-manager/desktop_v2_async.go:333-353 | a finished load begins again exactly if it was dirty, and otherwise ends |
| `SnapshotWorker.EnsureMeans` | cmd/tunnel-manager/desktop_v2_async.go:263-284 | asking for a snapshot wakes the worker exactly if one is due and none is under way, and never has a load repeated |
| `SnapshotWorker.FinishMeans` | cmd/tunnel-manager/desktop_v2_async.go:333-353 | a load that succeeds gives a new revision and clears the failure, one that fails leaves the last snapshot |
| `SnapshotWorker.TokensAreNeverDropped` | cmd/tunnel-manager/desktop_v2_async.go:280-283 | in every interleaving dirty implies loading, and a wake-up never finds the channel full |
| `SnapshotWorker.NoRefreshIsLost` | cmd/tunnel-manager/desktop_v2_async.go:324-357 | whenever nothing is loading, the last finished load began after the latest refresh request |
| `SnapshotWorker.LoadsAreNotStuck` | cmd/tunnel-manager/desktop_v2_async.go:324-357 | while a load is due and the worker is there, a step towards it is possible |
| `SnapshotWorker.Follow` | cmd/tunnel-manager/desktop_v2_async.go:263-357 | the object, driven step by step, has in every state of every run the flags of the model |
| `CapabilityForest.WalkEnds` | internal/enrichment/helpers.go:148-156 | the walk up terminates, at a root or by showing a cycle |
| `CapabilityForest.ValidateHierarchy` | internal/enrichment/helpers.go:117-165 | accepts exactly the hierarchies with the right protocol, unique non-blank ids, names, known members, existing parents, no cycle and every known tool assigned |
| `CapabilityForest.CapabilityPath` | internal/discovery/capability.go:108-124 | computes the nodes up to a root, a missing parent or a repeated node |
| `CapabilityForest.PathIsChain` | internal/discovery/capability.go:108-124 | a path begins with its node, and each further node is the parent that the one before names |
| `CapabilityForest.EveryNodeIsFound` | internal/enrichment/helpers.go:126-135 | with unique ids every node is found under its own trimmed id |
| `CapabilityForest.PathsReachRootsIff` | internal/discovery/capability.go:108-124 | in an accepted hierarchy every path reaches a root exactly if every parent is written as the id of some node is |
| `CapabilityForest.TrimmedIdsReachRoots` | internal/discovery/capability.go:108-124 | with ids written trimmed, every path of an accepted hierarchy reaches a root |
| `CapabilityForest.BlankInIdCutsPath` | internal/enrichment/helpers.go:128-129 | an accepted hierarchy whose path is cut short by a blank in an id |
| `RequestPaging.PageRequest` | internal/mcpmanager/index_tools.go:312-367 | a page is the longest one within the item limit and the byte budget, never empty while items remain; bad offsets are refused |
| `RequestPaging.FollowIsComplete` | internal/mcpmanager/index_tools.go:312-367 | following the next offset from zero, with any item limits, terminates with exactly the items of the request |
| `RequestPaging.ResolveMeans` | internal/mcpmanager/index_tools.go:222-235 | only for the capability batch a limit above one without an offset is an offset, and its batch limit is one; other calls mean what they say |
| `RequestPaging.LegacyAgreesIff` | internal/mcpmanager/index_tools.go:222-235 | a client that sends the next offset as a limit sees the same pages exactly if the first one is complete or has at least two items |
| `RequestPaging.LegacyIsStuck` | internal/mcpmanager/index_tools.go:222-235 | after a first page of one item such a client is sent back to the start for ever |
| `VectorCodec.Encode` | internal/retrieval/store.go:178-191 | writes magic, dimensions and words for exactly the valid vectors |
| `VectorCodec.LayoutMeans` | internal/retrieval/store.go:178-191 | the payload begins with GTMVEC01; the number of dimensions and the words follow, each with its highest byte first |
| `VectorCodec.DecodesIff` | internal/retrieval/store.go:193-215 | a valid vector is read back as it was written exactly if it has at most 65536 dimensions |
| `VectorCodec.DecodeIsExact` | internal/retrieval/store.go:193-215 | only encodings of valid vectors are accepted, each for one vector |

## Left out

- Counters of the lifecycle and the tunnel are unbounded; the preference revision wraps at 2^64.
- Times are integers in one clock; the timestamps of catalog rows other than dirty markers are not modelled.
- `maintainAlwaysOn`, `StartAlwaysOn` and the retry delays: they only call operations that are modelled.
- A commit whose prepared mutation was aborted by shutdown, which then only replaces entries.
- Entries that a commit replaces on servers that were not prepared: they are assumed to need no new runtime, as they do when prepare was given the current entries.
- The test that Restart makes before it waits for the token: a run may take the token for a restart at any time.
- The step in which a commit takes the pending mutation and adds new servers to the table is one step; the code does it under two locks in turn.
- The closing flag of the service is modelled per server, so a run may set it for one server before another.
- `CheckIntegrity`, corrupt rows, hash collisions and the re-check of stored payloads: fingerprints identify what they are taken of.
- Source servers, neighborhood contexts and the status report: no property here depends on them.
- `ClearIndex` and reset: they empty the tables.
- Dependencies of an artifact are a value; their sorting and the refusal of repeated keys are not modelled.
- Review responses: they are accepted like the others and have no further effect.
- CapabilityPreparation.SubmitCapabilityBatch: takes the verdict of validation as an input; `CapabilityForest.ValidateHierarchy` models the hierarchy part, the checks of review proposals are not modelled, and the proposals come in the order in which the code sorts them.
- ToolPreparation.PrepareToolEnrichment: goes through the sources in any order, where the code goes through them by name.
- Replay.RepairReachesEnd: assumes an embedding provider that has a vector for every text and gives the same one for the same text.
- EmbeddingChunks.CollectBatches: uses real numbers and leaves out the final scaling to unit length.
- EmbeddingChunks.PrepareSegments: takes the tokenizer as a function of its input.
- Ranking, BM25, cosine scores and reciprocal rank fusion of a search.
- The order of effective rules and their use in ranking.
- `EmbedQuery`: a lookup, a call of the provider and a store.
- Desktop interface, transports, process control, OAuth, secrets, downloads and updates.
