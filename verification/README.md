# Codex worker broker: verified model

A Dafny model of the worker broker under
`skills/subagent-driven-development/scripts/codex_worker/`, with proofs of the guarantees its
five parts are built for. `dafny verify dfyconfig.toml` checks the whole project.

**Legacy migration** (`Ordering`, `LegacyStores`, `CallbackProjection`, `Migration*`,
`LegacyMigrator`, `SessionRegistry`). Planning merges any number of legacy stores into the global one and
quarantines whatever disagrees; it is a declarative plan over sets, computed by the loops of
`MigrationPlanner`. Every durable file is a value and every publish one atomic step; a crash is
stopping between two steps. The class `LegacyMigrator` runs commit, import and conflict
resolution over those files, and is proved to be the functions whose crash states the lemmas
are about: imports converge from any crashes, resolutions are transactions up to the exact
conditions below, ledgers stay valid and run out of conflicts. In the registry an identity, once
created, resolves to itself alone.

**Maintenance gate, gateway and coordinator** (`MaintenanceGate`, `Gateway*`, `JsonRpcFrames`,
`ThreadInventory`, `ThreadPages`, `Maintenance`). Frontend pumps, backend pumps, closing threads, broker calls
and one drainer interleave at single critical sections and sends. Every live mutation token has
exactly one holder, the gate counts exactly the live tokens, and each is released exactly once;
an open bridge remembers exactly the requests its backend has yet to answer.
While an unforced lease is live nothing outside the allow-list reaches a backend; the
coordinator's termination relies on that.

**Runtime turn store** (`Runtime*`). One session driven by notifications, start responses,
authoritative reads and detachment. The event ring refines the full log, publication memory is
an exact LRU, retention is bounded but protects what is published once at a time, the
start handshake accounts for the turn it accepts, and a snapshot carries its turn's items in order.

**Callback outbox and dispatcher** (`CallbackOutbox`, `CallbackStores`, `CallbackDelivery`,
`TerminalEvents`, `CallbackTurns`, `CallbackSafety`, `CallbackRetry`, `CallbackBound`,
`CallbackService`, `CallbackClient`, `CallbackDispatcher`). The durable store
only grows; the single consumer delivers at least once and never after an event is durably
written. Per turn, processor and client share projection and persistence through ownership
sets; the result is projected once, persisted by one thread at a time and never dropped
silently; while the dispatcher runs a failed persist is tried again until the event is stored.

**Strict models** (`StrictModels`, `FacadeFaults`). Type-directed check, dump and load, which undo
each other: no model has an integer enum, so `StringEnumsReproduceJson` covers all of them. The
fault envelope, which has one, is read and written by its own pair of methods.

Code that updates state step by step is modelled by classes and methods with loops; each is
proved against the functions the lemmas reason about.

## Where the code and its promises part

Each of these is a lemma with a concrete input or run, next to the exact condition under which
the promise holds.

- An import or resolution of a store with an outbox event whose session was never bound passes
  planning, replaces the registry and then fails for good (`UnboundEventStallsImport`,
  `UnboundReplayNeverCompletes`); it completes exactly when every event is bound
  (`ImportCompletes`, `BoundStoresImport`, `BoundStoresResolve`).
- "No intent, no mix" fails for a rollback that begins after the new ledger was written and is
  cut short right after it restored the callbacks: the next restart finds the resolution in the
  ledger and clears the intent. `NoMixWithoutIntent` has the exact condition, `MixedDisk` two
  legacy stores that lead there.
- Other rollbacks cut short after the new ledger can never be replayed (`StuckDisk`);
  `CutShortRollback` says exactly which. A completed rollback restores the registry's records,
  and its file only if it was in key order (`RollbackRestores`).
- A crashed or failed live resolution is refused at every restart once the dispatcher has recorded
  an attempt at one of its events (`DeliveryBlocksReplay`) or a clashing record was created; it goes
  on exactly when neither happened (`ReplayProceedsExactly`, `ReplayAfterRewrite`).
- A live resolution that raises after it wrote its ledger leaves the process with the registry it
  had before. The next session created or annotated rewrites the file without the chosen record
  (`LostRecord`); `StaleRegistryExact` says exactly when restarts still take it for finished.
- `WebSocketGateway.close` closes bridges under running pumps: a mutating request can then be
  sent under an unforced lease, or its token stranded (`EarlyCloseBreaksDrain`,
  `EarlyCloseStrands`). `EarlyCloseExact` and `StrandingExact` say exactly which closes can do
  that; the drain results hold over all runs without the former.
- Trimming can evict a snapshot under publication: exactly when two publications of its turn
  overlap (`SurvivesExactlyAlone`). That takes a detachment, which publishes a turn without
  marking it, or `event_limit` other turns in between (`OverlapNeeds`); both happen
  (`DetachedTurnOverlaps`, `ForgottenTurnLosesSnapshot`).
- An idle thread read between reservation and response loses the observed turn
  (`IdleReadLosesTurn`); `ResponseIsAccountedFor` says exactly when it stays lost.
- A fault's code may arrive as any number that compares equal, and null stands for an absent field;
  writing the fault out again gives an integer and the default (`FloatCodeIsRead`,
  `WriteUndoesRead`).

## Assumptions

- Canonical JSON and SHA-256 are injective; path canonicalisation happened before. An absent
  registry or callback file is an empty one. Snapshots are sets with unique keys.
- Legacy sources do not change between runs. Each publish is atomic.
- A backend answers a keyed request at most once and only after receiving it; a send that raises
  was not delivered.
- One client per turn, which calls exactly one of `completion_for` or `abandon_completion`.
- A model's extra checks (`_check_literals`, `_check_contract`) are an arbitrary predicate on the
  constructed value. Enum values are strings or integers, distinct within an enum.

## Model

| member | source | states |
|---|---|---|
| CallbackProjection.ProjectionRewritesIdentity | skills/subagent-driven-development/scripts/codex_worker/migration.py:469-548 | a projected callback entry keeps its ids, state, attempts and error; every embedded worker becomes the projected record; the artifact to publish is the one the entry refers to |
| CallbackProjection.ProjectionOntoItself | skills/subagent-driven-development/scripts/codex_worker/migration.py:469-548 | projecting onto the unchanged record leaves inline entries as they are and artifacts with their original completion |
| CallbackProjection.ProjectionSucceedsExactly | skills/subagent-driven-development/scripts/codex_worker/migration.py:469-548 | an event is projected if and only if the record it goes to is complete, every worker in it is the record it comes from, its payload has a known shape, and a file it refers to is intact and has a safe id |
| CallbackProjection.ProjectionKeepsContent | skills/subagent-driven-development/scripts/codex_worker/migration.py:469-548 | apart from the workers nothing changes: time, priority, message, turn and body stay, and a result in a file becomes the global file of that event |
| MigrationPlanner.Disputes | skills/subagent-driven-development/scripts/codex_worker/migration.py:323-358 | the grouping loop quarantines exactly the sessions that share a key with a different value |
| MigrationPlanner.KeyedMerge | skills/subagent-driven-development/scripts/codex_worker/migration.py:770-821 | merging by key succeeds exactly when equal keys carry equal values, and is then the union |
| MigrationPlanner.SettleOutcomes | skills/subagent-driven-development/scripts/codex_worker/migration.py:405-426 | the pass over the sorted records gives each its outcome, and merges the target with exactly the unquarantined records |
| MigrationPlanner.BuildConflicts | skills/subagent-driven-development/scripts/codex_worker/migration.py:389-403 | the conflict list is the sorted list of every disputed name with all its candidates and digests |
| MigrationPlanner.PlanMerge | skills/subagent-driven-development/scripts/codex_worker/migration.py:300-448 | planning succeeds if and only if the merge is plannable, returns the declarative plan, and otherwise names a fault that is present |
| MigrationPlanner.PlanIgnoresSourceOrder | skills/subagent-driven-development/scripts/codex_worker/migration.py:300-448 | any permutation of stores with distinct paths is plannable alike and gives the same plan |
| MigrationSoundness.PlannedRegistrySound | skills/subagent-driven-development/scripts/codex_worker/migration.py:316-448 | planned records have pairwise distinct session ids, thread ids and names; every target record and every unquarantined legacy record survives and nothing else appears |
| MigrationSoundness.PlannedCallbacksSound | skills/subagent-driven-development/scripts/codex_worker/migration.py:770-821 | every target binding and event survives, keys stay unique, every planned artifact belongs to one planned event and never overwrites a different file |
| MigrationVerdicts.QuarantinedExactly | skills/subagent-driven-development/scripts/codex_worker/migration.py:323-387 | a session is quarantined if and only if another record in any store or the target claims its session, thread or name, another binding says something else of it, or another event has the id of one of its own |
| MigrationVerdicts.PlannableExactly | skills/subagent-driven-development/scripts/codex_worker/migration.py:332-441 | planning succeeds if and only if every binding and event belongs to a record of its own store, every event projects, no quarantined record is without a name, and no file to be published is there with other content |
| MigrationVerdicts.ViewsExactly | skills/subagent-driven-development/scripts/codex_worker/migration.py:405-426 | the sources of the ledger are one view of every record of every store and of nothing else, ordered by store |
| MigrationVerdicts.ViewOutcome | skills/subagent-driven-development/scripts/codex_worker/migration.py:409-412 | a record is reported in conflict exactly when its session is quarantined |
| MigrationVerdicts.ImportedCountsRecords | skills/subagent-driven-development/scripts/codex_worker/migration.py:442-446 | the imported count is the number of distinct surviving records, however many stores hold copies |
| MigrationVerdicts.ConflictsExactly | skills/subagent-driven-development/scripts/codex_worker/migration.py:389-403 | a name is left in conflict if and only if a quarantined record bears it; its candidates are then all records of that name in all stores, with the digests of those stores |
| MigrationVerdicts.PlannedByName | skills/subagent-driven-development/scripts/codex_worker/migration.py:853-855 | the planned records are written in the order of their names, then of their sessions |
| MigrationSoundness.PlannedCallbacksComplete | skills/subagent-driven-development/scripts/codex_worker/migration.py:428-441 | every binding and event of an undisputed session is planned, nothing else joins the target's, and the planned files are exactly those the events refer to |
| MigrationSoundness.PlannedReferences | skills/subagent-driven-development/scripts/codex_worker/migration.py:438-440 | every event a plan takes from a store that refers to a file has that file among the plan's |
| MigrationSoundness.CollisionChecksUnreachable | skills/subagent-driven-development/scripts/codex_worker/migration.py:770-821 | the binding, event, artifact and record collision checks compare nothing but equal values on a plan |
| MigrationSoundness.ConflictedNameIsQuarantined | skills/subagent-driven-development/scripts/codex_worker/migration.py:389-412 | a record carrying a conflicted name is itself quarantined |
| MigrationSoundness.OutcomesPartition | skills/subagent-driven-development/scripts/codex_worker/migration.py:405-426 | one outcome per legacy record: conflicted exactly when quarantined, exactly one copy of a surviving record imported, every other copy deduplicated after it |
| MigrationSoundness.CountsAddUp | skills/subagent-driven-development/scripts/codex_worker/migration.py:442-446 | imported, deduplicated and conflicted counts add up to the number of sources |
| MigrationSoundness.PlannedLedgerValid | skills/subagent-driven-development/scripts/codex_worker/service_domain.py:122-195 | every planned status meets the `MigrationStatusView` and `LegacyConflict` contracts and its open candidates are backed by conflicted sources |
| MigrationLedger.ResolveStatus | skills/subagent-driven-development/scripts/codex_worker/migration.py:226-262 | the status after a resolution: succeeds if and only if exactly the open source exists, with the faults told apart |
| MigrationLedger.ResolutionKeepsLedger | skills/subagent-driven-development/scripts/codex_worker/migration.py:226-262 | a resolution turns exactly one conflicted source into imported, keeps every ledger contract and strictly decreases the open candidates |
| MigrationLedger.ResolutionsAreFinite | skills/subagent-driven-development/scripts/codex_worker/migration.py:226-262 | a run of resolutions is no longer than the candidates first on offer, imports one source per step and ends in a valid ledger |
| MigrationLedger.ConflictsLeftExactly | skills/subagent-driven-development/scripts/codex_worker/migration.py:226-262 | the conflicts a resolution leaves: those over other names untouched; the one over the chosen name only after a renaming, with exactly its other candidates, if it has any |
| MigrationCommit.CommitReachesPrefix | skills/subagent-driven-development/scripts/codex_worker/migration.py:591-621 | a commit stopped after any number of publishes leaves exactly that prefix of artifacts, registry, callbacks, ledger; it is done or fails exactly as the bindings say |
| MigrationCommit.PrefixOverPrefix | skills/subagent-driven-development/scripts/codex_worker/migration.py:591-621 | publishing a prefix over a prefix is publishing the longer one |
| MigrationCommit.ReplanIsSame | skills/subagent-driven-development/scripts/codex_worker/migration.py:107-122 | planning over a half-committed target makes the same plan |
| MigrationImport.ImportConverges | skills/subagent-driven-development/scripts/codex_worker/migration.py:107-122 | after any number of crashed imports, the one that is not stopped ends in the disk and outcome of one uninterrupted import |
| MigrationImport.ImportCompletes | skills/subagent-driven-development/scripts/codex_worker/migration.py:107-122 | an undisturbed import completes if and only if the merge is plannable and no merged event is unbound, and then holds exactly the plan; a failed one leaves callbacks and ledger alone |
| MigrationImport.ImportedReferencesResolve | skills/subagent-driven-development/scripts/codex_worker/migration.py:591-598 | after an import that is done every imported event that refers to a file has it on disk with that content |
| MigrationImport.BoundStoresImport | skills/subagent-driven-development/scripts/codex_worker/callback_store.py:163-174 | stores whose events are all bound merge into a bound store, so their import completes |
| MigrationImport.UnboundEventStallsImport | skills/subagent-driven-development/scripts/codex_worker/callback_store.py:169-171 | with an unbound event the registry is replaced and then every import fails, changing nothing more |
| MigrationImport.UnboundEventExample | skills/subagent-driven-development/scripts/codex_worker/callback_store.py:169-171 | a concrete legacy store with such an event |
| MigrationRollback.RunStates | skills/subagent-driven-development/scripts/codex_worker/migration.py:209-224 | every run of a resolution that may proceed, however it is disturbed, stops undisturbed with the whole plan committed, in a forward state, or where its rollback got to |
| MigrationChoice.ProceedsExactly | skills/subagent-driven-development/scripts/codex_worker/migration.py:169-208 | a resolution proceeds if and only if it picks one candidate by thread, its store and record are still there, the record under its new name agrees with the global registry, its callbacks project and join without a clash, and the ledger has the source open |
| MigrationChoice.ResolutionPicks | skills/subagent-driven-development/scripts/codex_worker/migration.py:169-186 | what it picks: the only candidate of that thread, its store by path and digest, the record with the candidate's session and thread, changed in its name alone: the name asked for, and the conflict's name when none was |
| MigrationChoice.PlanTakes | skills/subagent-driven-development/scripts/codex_worker/migration.py:196-206 | with the chosen record go exactly its own bindings, its own events and the files they refer to |
| MigrationChoice.ResolutionAdopts | skills/subagent-driven-development/scripts/codex_worker/migration.py:169-224 | an undisturbed resolution leaves the old records and exactly that one more, its callbacks and files, and when it renames, no record that newly bears the disputed name |
| MigrationChoice.ReplayAdopts | skills/subagent-driven-development/scripts/codex_worker/migration.py:139-208 | so does a crashed one, after any restarts, once one is not stopped |
| MigrationChoice.AlreadyExactly | skills/subagent-driven-development/scripts/codex_worker/migration.py:139-168 | a resolution is taken for finished if and only if no other is pending, the registry holds a record of its thread under the name asked for, and the ledger lists it or leaves neither name in conflict |
| MigrationChoice.ReplayNeverRollsBack | skills/subagent-driven-development/scripts/codex_worker/migration.py:209-224 | an exception during a replay leaves the disk that a crash at the same point leaves, and the intent stays until the resolution is done |
| MigrationRecovery.CrashThenReplayCompletes | skills/subagent-driven-development/scripts/codex_worker/migration.py:131-224 | a resolution stopped anywhere after its intent, replayed by restarts that are stopped anywhere, ends in exactly the new registry, callbacks and ledger with no intent |
| MigrationRecovery.RepeatingChangesNothing | skills/subagent-driven-development/scripts/codex_worker/migration.py:148-168 | repeating a finished resolution changes nothing |
| MigrationRollback.RollbackRestores | skills/subagent-driven-development/scripts/codex_worker/migration.py:210-222 | a run that reports its rollback complete has restored callbacks, ledger and records, and keeps every artifact file; the registry file itself is the old one exactly when it was in key order |
| MigrationRollback.NoMixWithoutIntent | skills/subagent-driven-development/scripts/codex_worker/migration.py:148-224 | after a run disturbed anywhere and any restarts stopped anywhere, a disk without intent holds all old or all new registry, callbacks and ledger if and only if the run was not one whose rollback, begun after the new ledger, stopped right after restoring changed callbacks while the chosen record was in the registry before |
| MigrationRollback.CutShortRollback | skills/subagent-driven-development/scripts/codex_worker/migration.py:148-154 | from any state of a rollback cut short and after any restarts stopped anywhere, the next undisturbed restart reaches the new registry, callbacks and ledger if and only if the state is replayable: the ledger was still old or is old again, or nothing was rolled back yet, or the chosen record was in the registry all along and the callbacks on disk are the new ones |
| MigrationRollback.RestartsInFlight | skills/subagent-driven-development/scripts/codex_worker/migration.py:148-208 | restarts stopped anywhere, from a disk with the old ledger, stay at the old ledger with the intent or arrive at the new registry, callbacks and ledger, and at nothing else |
| MigrationMixing.ImportLeaves | skills/subagent-driven-development/scripts/codex_worker/migration.py:107-122 | two concrete legacy stores that dispute a name import to exactly this disk: the global one with the conflict in its ledger |
| MigrationMixing.ChoiceProceeds | skills/subagent-driven-development/scripts/codex_worker/migration.py:131-208 | on that disk choosing the first candidate proceeds, adding the one new binding |
| MigrationMixing.MixedDisk | skills/subagent-driven-development/scripts/codex_worker/migration.py:148-158 | a run and a restart from that disk that end without intent over the new ledger and the old callbacks |
| MigrationMixing.StuckDisk | skills/subagent-driven-development/scripts/codex_worker/migration.py:148-208 | a run from the same stores after which every restart is refused: the intent and the new ledger stay over the old registry for good |
| MigrationMixing.LostRecord | skills/subagent-driven-development/scripts/codex_worker/migration.py:931-943 | a run from the same stores that wrote everything but kept its intent: once a new session rewrote the registry from stale memory, the chosen record is gone and every restart is refused for good |
| MigrationInterference.ReplayProceedsExactly | skills/subagent-driven-development/scripts/codex_worker/migration.py:182-204 | when other threads wrote the registry and the callback store since the crash, a replay may proceed if and only if no record clashes with the chosen one and its binding and events are absent or unchanged; otherwise it is refused, and which refusal it is |
| MigrationInterference.ReplayAfterRewrite | skills/subagent-driven-development/scripts/codex_worker/migration.py:131-224 | after any restarts, one that is not stopped adds the chosen record and its callbacks to the registry and store as they are now, with the new ledger and no intent, if the replay may proceed (and every event is bound); otherwise no restart changes anything |
| MigrationInterference.DeliveryBlocksReplay | skills/subagent-driven-development/scripts/codex_worker/migration.py:776-789 | after any run of outbox operations that recorded an attempt at an event the resolution brought in, every restart is refused and changes nothing |
| MigrationInterference.StaleRegistryExact | skills/subagent-driven-development/scripts/codex_worker/migration.py:931-943 | a live resolution raised after its new ledger was written and live sessions then rewrote the registry from the old memory: restarts take it for finished if and only if the chosen record was there before or a session was created under its name and thread; otherwise the record is gone and the intent stays |
| MigrationRecovery.BoundStoresResolve | skills/subagent-driven-development/scripts/codex_worker/migration.py:196-200 | stores whose events are all bound give a resolution plan that can commit |
| MigrationRollback.UnboundReplayNeverCompletes | skills/subagent-driven-development/scripts/codex_worker/migration.py:209-222 | with an unbound event a crashed resolution is never repaired: after any restarts, stopped anywhere, the intent and the old ledger are still there |
| MigrationRecovery.ResolutionWritesValidLedger | skills/subagent-driven-development/scripts/codex_worker/migration.py:226-262 | every ledger a resolution writes is valid, has one more import, fewer candidates and the resolution appended |
| LegacyMigrators.DuplicateFree | skills/subagent-driven-development/scripts/codex_worker/registry.py:228-231 | the duplicate check passes exactly when no session id, thread id or name appears twice |
| LegacyMigrators.ChoosePlan | skills/subagent-driven-development/scripts/codex_worker/migration.py:174-208 | the chosen resolution: the first refusal that applies, or the plan, ledger and rollback |
| LegacyMigrators.DecideResolution | skills/subagent-driven-development/scripts/codex_worker/migration.py:131-208 | the whole decision of `resolve`: already resolved, refused, or proceed |
| LegacyMigrators.LegacyMigrator.PublishArtifact | skills/subagent-driven-development/scripts/codex_worker/callback_store.py:272-298 | an artifact is inserted, or verified equal to the file already there |
| LegacyMigrators.LegacyMigrator.PublishRegistry | skills/subagent-driven-development/scripts/codex_worker/registry.py:220-234 | the registry is replaced as a whole or refused for duplicates |
| LegacyMigrators.LegacyMigrator.ReplaceCallbacks | skills/subagent-driven-development/scripts/codex_worker/callback_store.py:163-174 | the callback store is replaced as a whole or refused for an unbound event |
| LegacyMigrators.LegacyMigrator.Commit | skills/subagent-driven-development/scripts/codex_worker/migration.py:591-621 | the publishing loop, stopped anywhere, is the commit whose crash states are proved above |
| LegacyMigrators.LegacyMigrator.Resolve | skills/subagent-driven-development/scripts/codex_worker/migration.py:131-224 | the write-ahead transaction with its rollback, disturbed anywhere, is the resolution proved above |
| LegacyMigrators.LegacyMigrator.Execute | skills/subagent-driven-development/scripts/codex_worker/migration.py:209-224 | intent, commit, rollback and removal of the intent, disturbed anywhere, are the transaction proved above |
| LegacyMigrators.LegacyMigrator.ScanAndApply | skills/subagent-driven-development/scripts/codex_worker/migration.py:107-122 | scanning, planning and committing, stopped anywhere, is the import proved above |
| SessionRegistries.CreateKeepsValid | skills/subagent-driven-development/scripts/codex_worker/registry.py:288-297 | adding a record keeps identifiers unique if and only if none of its identifiers is taken |
| SessionRegistries.MatchIsUnique | skills/subagent-driven-development/scripts/codex_worker/registry.py:236-241 | a selector matches at most one record, so resolution is never ambiguous |
| SessionRegistries.IdentityIsForGood | skills/subagent-driven-development/scripts/codex_worker/registry.py:236-326 | over every run of creations and annotations identifiers stay unique and a record is selected, and it alone, by what selected it before |
| SessionRegistries.SessionRegistry.TryResolve | skills/subagent-driven-development/scripts/codex_worker/registry.py:236-241 | the matching record, if there is one; never an ambiguity |
| SessionRegistries.SessionRegistry.ResolveName | skills/subagent-driven-development/scripts/codex_worker/registry.py:314-326 | refused for a name under migration conflict, unknown, or the record of that name |
| SessionRegistries.SessionRegistry.Create | skills/subagent-driven-development/scripts/codex_worker/registry.py:256-297 | refused exactly when an identifier is taken; otherwise memory and file gain the record together |
| SessionRegistries.SessionRegistry.UpdateAnnotations | skills/subagent-driven-development/scripts/codex_worker/registry.py:299-312 | one record's model, effort and time are overwritten in memory and file together |
| SessionRegistries.SessionRegistry.ReplaceAll | skills/subagent-driven-development/scripts/codex_worker/registry.py:220-234 | the snapshot replaces memory and file together, refused exactly for duplicates |
| SessionRegistries.LastAnnotationStays | skills/subagent-driven-development/scripts/codex_worker/registry.py:299-312 | over every run a record carries the model, effort and time of its last annotation, even where that one says none, and everything else stays as created |
| MaintenanceGates.ServiceMaintenanceGate.EnterMutation | skills/subagent-driven-development/scripts/codex_worker/websocket_gateway.py:106-113 | a mutation enters exactly when the gate is not draining |
| MaintenanceGates.ServiceMaintenanceGate.ExitMutation | skills/subagent-driven-development/scripts/codex_worker/websocket_gateway.py:116-122 | leaving decrements the count; the assertion fires exactly when nothing was active |
| MaintenanceGates.ServiceMaintenanceGate.TryBeginDrain | skills/subagent-driven-development/scripts/codex_worker/websocket_gateway.py:128-131 | one drainer at a time starts draining |
| MaintenanceGates.ServiceMaintenanceGate.TryGrant | skills/subagent-driven-development/scripts/codex_worker/websocket_gateway.py:132-135 | a lease is granted exactly when nothing is active or the drain is forced, and leases are never reused |
| MaintenanceGates.ServiceMaintenanceGate.FinishDrain | skills/subagent-driven-development/scripts/codex_worker/websocket_gateway.py:138-144 | ending a drain expires its own lease and no other and reopens the gate |
| MaintenanceGates.ServiceMaintenanceGate.Authorize | skills/subagent-driven-development/scripts/codex_worker/websocket_gateway.py:146-155 | authorisation passes exactly for the live lease of a drained gate |
| JsonRpcFrames.EnvelopeIsResponseObject | skills/subagent-driven-development/scripts/codex_worker/websocket_transport.py:259-272 | the classifier accepts exactly what a peer builds as a Response object of section 5 of JSON-RPC 2.0: an id, a result or an error object, possibly the version and further members, and no method |
| JsonRpcFrames.UngatedFrames | skills/subagent-driven-development/scripts/codex_worker/websocket_gateway.py:158-166 | what bypasses the gate: exactly such responses and the three allow-listed requests; nothing that names a method passes as a response |
| JsonRpcFrames.ResponseFindsItsRequest | skills/subagent-driven-development/scripts/codex_worker/websocket_gateway.py:227-230 | every response a peer builds for a request id is recognised and keyed to that request; other ids have other keys |
| JsonRpcFrames.RouteIsAdmission | skills/subagent-driven-development/scripts/codex_worker/websocket_gateway.py:356-400 | a routed request is the corresponding admission of the gateway machine; a request outside the allow-list is never forwarded as a read |
| JsonRpcFrames.RefusedExactly | skills/subagent-driven-development/scripts/codex_worker/websocket_gateway.py:366-386 | a frame is refused if and only if it is no object, its id is neither integer nor text, or it is no response and names no method or reuses a pending id |
| JsonRpcFrames.RoutedExactly | skills/subagent-driven-development/scripts/codex_worker/websocket_gateway.py:376-413 | every other request goes on under its own id, as a read for the three allow-listed methods and through the gate for any other |
| JsonRpcFrames.PassedExactly | skills/subagent-driven-development/scripts/codex_worker/websocket_gateway.py:372-375 | exactly the Response objects pass straight through |
| GatewayBridges.BridgeEntries.Register | skills/subagent-driven-development/scripts/codex_worker/websocket_gateway.py:387-410 | registering a pending entry is the machine's publish step |
| GatewayBridges.BridgeEntries.RetractRead | skills/subagent-driven-development/scripts/codex_worker/websocket_gateway.py:393-398 | a failed read removes its entry only if it is still its own |
| GatewayBridges.BridgeEntries.RetractMutation | skills/subagent-driven-development/scripts/codex_worker/websocket_gateway.py:415-423 | a failed mutating send takes its token back exactly when its entry was still there |
| GatewayBridges.BridgeEntries.Settle | skills/subagent-driven-development/scripts/codex_worker/websocket_gateway.py:455-459 | a response pops the entry and hands over its token, if it has one |
| GatewayBridges.BridgeEntries.Close | skills/subagent-driven-development/scripts/codex_worker/websocket_gateway.py:470-479 | closing takes every entry and leaves the gate once per mutation entry; a second close does nothing |
| GatewayEntries.EntriesAreRequests | skills/subagent-driven-development/scripts/codex_worker/websocket_gateway.py:380-487 | in every reachable state an open bridge remembers exactly the keyed requests the backend has yet to answer and the one being sent, each with its kind and no id twice; one closed by its handler remembers nothing |
| GatewayEntries.PumpEndsExactly | skills/subagent-driven-development/scripts/codex_worker/websocket_gateway.py:342-423 | over every run a frontend pump is on its way out if and only if it was stopped or a send of it failed; a refusal by the gate or an answer leaves it reading on |
| GatewayTokens.StepOwned | skills/subagent-driven-development/scripts/codex_worker/websocket_gateway.py:356-487 | every step of pumps, closers, broker calls and the drainer keeps each live token with exactly one holder |
| GatewayTokens.TokenConservation | skills/subagent-driven-development/scripts/codex_worker/websocket_gateway.py:113-122 | in every reachable state the gate counts the live tokens and each has one and only one holder |
| GatewayTokens.NoUnderflow | skills/subagent-driven-development/scripts/codex_worker/websocket_gateway.py:118-120 | whenever a token is released the count was positive, so the underflow assertion is unreachable |
| GatewayTokens.ReleasedExactlyOnce | skills/subagent-driven-development/scripts/codex_worker/websocket_gateway.py:380-479 | over any run an issued token was released exactly once or is still live, whoever won the race |
| GatewayTokens.ActiveIsTheSum | skills/subagent-driven-development/scripts/codex_worker/websocket_gateway.py:106-122 | the count is the running broker mutations plus, over all bridges, the pending mutation entries and the tokens in a thread's hand |
| GatewayTokens.BridgeCount | skills/subagent-driven-development/scripts/codex_worker/websocket_gateway.py:233-245 | the tokens a bridge holds are as many as its mutation entries plus those in its threads' hands |
| GatewayDrain.StepSafe | skills/subagent-driven-development/scripts/codex_worker/websocket_gateway.py:106-155 | every step, a gentle close under a running pump included, keeps the drain discipline of gate, bridges and pending calls |
| GatewayDrain.DrainSafety | skills/subagent-driven-development/scripts/codex_worker/websocket_gateway.py:124-144 | over every run in which bridges are closed by their handler or gently: while an unforced lease is live no broker mutation runs, nothing outside the allow-list was sent since the grant or can be sent next, and every earlier keyed mutating request is answered or its bridge closed |
| GatewayDrain.DrainAdmitsNothing | skills/subagent-driven-development/scripts/codex_worker/websocket_gateway.py:106-113 | while draining no step adds a live token, and only the end of the drain stops the draining |
| GatewayDrain.ExpiredLeaseIsDead | skills/subagent-driven-development/scripts/codex_worker/websocket_gateway.py:124-155 | over every run a lease that was given back never authorises anything again |
| GatewayDrain.HandlerClosedContributesZero | skills/subagent-driven-development/scripts/codex_worker/websocket_gateway.py:470-479 | a bridge closed by its handler holds only what is about to be released, and no step gives it more |
| GatewayEarlyClose.EarlyCloseExact | skills/subagent-driven-development/scripts/codex_worker/websocket_gateway.py:489-503 | after a close under a running pump, in any state reached with gentle closes only, every continuation keeps unforced leases free of sends if and only if that close is gentle too: the pump was ending, or no call was outstanding and the pump did not stand between registering a keyed request and sending it |
| GatewayEarlyClose.StrandingExact | skills/subagent-driven-development/scripts/codex_worker/websocket_gateway.py:400-423 | after any run at all, a close under a running pump can leave a mutation entry behind in the closed bridge if and only if the pump was not ending |
| GatewayContinuations.BridgeRunsDown | skills/subagent-driven-development/scripts/codex_worker/websocket_gateway.py:455-487 | in every reachable state any bridge, however it was closed, can be run down until it holds no token, without moving anything else |
| GatewayContinuations.GateReopens | skills/subagent-driven-development/scripts/codex_worker/websocket_gateway.py:124-144 | once nothing is in flight, the gate can always be brought to stand open, whatever drain was going on |
| GatewayEarlyClose.EarlyCloseBreaksDrain | skills/subagent-driven-development/scripts/codex_worker/websocket_gateway.py:489-503 | a run in which one `close` under a pump that has registered its request lets a mutating request out under an unforced lease |
| GatewayEarlyClose.EarlyCloseStrands | skills/subagent-driven-development/scripts/codex_worker/websocket_gateway.py:489-503 | a run in which one `close` between gate and registration leaves a mutation entry behind in the closed bridge |
| GatewayEarlyClose.StrandedTokenStays | skills/subagent-driven-development/scripts/codex_worker/websocket_gateway.py:470-487 | such a token stays live until a response is processed on that bridge, whatever else happens |
| ThreadInventory.KeepActive | skills/subagent-driven-development/scripts/codex_worker/broker.py:592-596 | a page's active threads are added by setdefault: first occurrences stay, in order |
| ThreadInventory.ReadPages | skills/subagent-driven-development/scripts/codex_worker/broker.py:582-607 | the paging loop succeeds if and only if some prefix of the responses is a complete listing with progressing cursors, and keeps the first occurrence of every active thread |
| ThreadInventory.TurnIsUnambiguous | skills/subagent-driven-development/scripts/codex_worker/broker.py:625-645 | a `thread/read` response yields a turn if and only if it is about the thread, calls it active, and has exactly one turn in progress, whose id is non-empty text |
| ThreadInventory.ListActiveThreads | skills/subagent-driven-development/scripts/codex_worker/broker.py:567-645 | the inventory succeeds if and only if the listing is complete and every active thread's response yields a turn |
| ThreadInventory.InventoryIsExact | skills/subagent-driven-development/scripts/codex_worker/broker.py:608-623 | a returned inventory names exactly the threads active on some page, each once, and meets the inventory and item contracts |
| ThreadInventory.ItemsAreExact | skills/subagent-driven-development/scripts/codex_worker/broker.py:608-623 | each item carries the flags its thread was first listed with, the turn its reply names, and its registered worker if it has one |
| ThreadPages.PageIsBuilt | skills/subagent-driven-development/scripts/codex_worker/broker.py:647-686 | a page is accepted if and only if a backend builds it of proper rows, under a cursor that is not empty |
| ThreadPages.PageReads | skills/subagent-driven-development/scripts/codex_worker/broker.py:589-605 | what is read off an accepted page is what was put in: its cursor, and its active rows in order |
| ThreadPages.TurnIsBuilt | skills/subagent-driven-development/scripts/codex_worker/broker.py:625-645 | a reply yields a turn if and only if a backend builds it for that thread, active, with that one turn in progress |
| Maintenance.DecisionIsSound | skills/subagent-driven-development/scripts/codex_worker/models.py:325-375 | every maintenance result meets its contract; termination goes with completion; an unforced one outside the stopping path happens exactly on an available empty inventory |
| Maintenance.DecisionIsExact | skills/subagent-driven-development/scripts/codex_worker/broker.py:1041-1082 | forced maintenance always terminates, unforced only when already stopping or over an empty inventory; inventory and names are reported exactly when known, active names being those on the inventory and idle ones all others |
| Maintenance.Lifecycle.TerminateOwned | skills/subagent-driven-development/scripts/codex_worker/service.py:128-130 | owned resources are torn down exactly under an authorised lease |
| Maintenance.MaintenanceCoordinator.Names | skills/subagent-driven-development/scripts/codex_worker/broker.py:1072-1076 | the worker impact lists active and other names, each sorted |
| Maintenance.MaintenanceCoordinator.Maintain | skills/subagent-driven-development/scripts/codex_worker/broker.py:1041-1082 | terminates at most once, exactly when the decision says so, and returns its result unless teardown is incomplete |
| Maintenance.NothingSentUnderLease | skills/subagent-driven-development/scripts/codex_worker/broker.py:1045-1082 | over every interleaving of the gateway threads with the paging, from the grant until the lease is given back: the lease stays authorised, no mutation is in flight and no request outside the allow-list is sent |
| Maintenance.UnforcedMaintenanceIsSafe | skills/subagent-driven-development/scripts/codex_worker/broker.py:1041-1082 | over every such interleaving that reaches an unforced termination outside the stopping path: the pages read in that run are a complete listing with no active thread on any of them, no mutation is in flight and nothing was sent since the grant |
| RuntimeStore.SessionRuntime.AppendEvent | skills/subagent-driven-development/scripts/codex_worker/runtime.py:165-181 | appending and trimming the deque keeps the last `event_limit` events |
| RuntimeStore.SessionRuntime.MarkPublished | skills/subagent-driven-development/scripts/codex_worker/runtime.py:107-114 | marking moves the id to the end and reports whether it was not remembered |
| RuntimeStore.SessionRuntime.TrimTerminals | skills/subagent-driven-development/scripts/codex_worker/runtime.py:116-122 | the trimming loop is the trimming whose result is characterised below, and it terminates |
| RuntimeStore.SessionRuntime.RetainTerminal | skills/subagent-driven-development/scripts/codex_worker/runtime.py:99-105 | retaining replaces the turn's snapshot, protects it while publishing, and trims |
| RuntimeStore.SessionRuntime.Commit | skills/subagent-driven-development/scripts/codex_worker/runtime.py:297-302 | latest turn, publication memory and retained snapshots after a commit |
| RuntimeStore.SessionRuntime.OnStarted | skills/subagent-driven-development/scripts/codex_worker/runtime.py:254-271 | a started notification: dropped when remembered and nothing awaits, else active and observed |
| RuntimeStore.SessionRuntime.OnCompleted | skills/subagent-driven-development/scripts/codex_worker/runtime.py:272-304 | a completed notification: dropped, or committed with its items and published when not remembered |
| RuntimeStore.SessionRuntime.OnItem | skills/subagent-driven-development/scripts/codex_worker/runtime.py:305-325 | an item is kept for the active or the observed pending turn, and always logged |
| RuntimeStore.SessionRuntime.OnDeclined | skills/subagent-driven-development/scripts/codex_worker/runtime.py:326-337 | a declined approval is logged |
| RuntimeStore.SessionRuntime.DetachSession | skills/subagent-driven-development/scripts/codex_worker/runtime.py:188-205 | a detachment ends the handshake, fails the active turn and retains it for publication |
| RuntimeStore.SessionRuntime.ReconcileThread | skills/subagent-driven-development/scripts/codex_worker/runtime.py:417-441 | an authoritative read replaces the active turn and commits the latest terminal one |
| RuntimeStore.SessionRuntime.FinishPublishing | skills/subagent-driven-development/scripts/codex_worker/runtime.py:338-342 | the end of a publication removes the protection and trims |
| RuntimeStore.SessionRuntime.ReleaseTerminal | skills/subagent-driven-development/scripts/codex_worker/runtime.py:94-97 | a released snapshot is gone |
| RuntimeStore.SessionRuntime.ReserveStart | skills/subagent-driven-development/scripts/codex_worker/runtime.py:460-468 | a start is reserved exactly when attached and idle |
| RuntimeStore.SessionRuntime.CancelStart | skills/subagent-driven-development/scripts/codex_worker/runtime.py:470-476 | a cancelled start leaves no reservation |
| RuntimeStore.SessionRuntime.ReconcileStart | skills/subagent-driven-development/scripts/codex_worker/runtime.py:478-500 | a start response is accepted or refused exactly as the handshake machine says; a refused one still ends the reservation |
| RuntimeStore.SessionRuntime.Events | skills/subagent-driven-development/scripts/codex_worker/runtime.py:529-540 | the page selected from the retained events |
| RuntimeRing.TruncationIsExact | skills/subagent-driven-development/scripts/codex_worker/runtime.py:536-540 | truncation is reported if and only if an event after the cursor was evicted |
| RuntimeItems.SnapshotIsExact | skills/subagent-driven-development/scripts/codex_worker/runtime.py:195-325 | over every run a completion or detachment records exactly the items taken, in order, since the turn's items last started over, after those of a read that named it active; reads are recorded as they are |
| RuntimeItems.PublishedIsRecorded | skills/subagent-driven-development/scripts/codex_worker/runtime.py:195-304 | what is handed to the observers is what was just recorded: always for a detachment, otherwise exactly when the turn is not remembered |
| RuntimeItems.RetainedIsRecordedLast | skills/subagent-driven-development/scripts/codex_worker/runtime.py:94-105 | a retained snapshot is the one its turn got last |
| RuntimeRing.PageOfLog | skills/subagent-driven-development/scripts/codex_worker/runtime.py:529-540 | a page is a consecutive stretch of the whole log from the cursor or the oldest retained event, and names its last cursor |
| RuntimeRing.ReaderFollowsLog | skills/subagent-driven-development/scripts/codex_worker/runtime.py:165-181 | over any interleaving of steps and polls the ring is the end of the whole log, and a reader that follows its cursor has read exactly the log until truncation is reported |
| RuntimeRing.FreshSessionFollowsLog | skills/subagent-driven-development/scripts/codex_worker/runtime.py:165-181 | the same from a fresh session: cursors are consecutive from one |
| RuntimePublication.MarkIsLru | skills/subagent-driven-development/scripts/codex_worker/runtime.py:107-114 | marking the remembered ids is marking the full recency order and keeping its end |
| RuntimePublication.RememberedExactly | skills/subagent-driven-development/scripts/codex_worker/runtime.py:107-114 | an id is remembered if and only if fewer than `event_limit` distinct other ids were marked since its last mark |
| RuntimePublication.PublishedOnceWhileRemembered | skills/subagent-driven-development/scripts/codex_worker/runtime.py:297-302 | a completion or read publishes a turn marked before if and only if at least `event_limit` distinct turns were marked since |
| RuntimePublication.NoResurrection | skills/subagent-driven-development/scripts/codex_worker/runtime.py:254-271 | with no start awaiting, notifications, the loss of the transport included, never make a committed turn active again while fewer than `event_limit` distinct turns were marked since |
| RuntimePublication.TrimExactly | skills/subagent-driven-development/scripts/codex_worker/runtime.py:116-122 | trimming keeps every snapshot in publication and of the others exactly the newest for which there is room |
| RuntimePublication.TrimBounds | skills/subagent-driven-development/scripts/codex_worker/runtime.py:116-122 | what trimming leaves is within the limit or all in publication, and everything in publication is left |
| RuntimePublication.RetentionIsBounded | skills/subagent-driven-development/scripts/codex_worker/runtime.py:94-122 | in every reachable state retained snapshots are within the limit or all in publication, and within it once nothing is in flight |
| RuntimeProtection.ProtectedSurvives | skills/subagent-driven-development/scripts/codex_worker/runtime.py:99-122 | a protected snapshot survives every step but its own release or the end of its publication |
| RuntimeProtection.SurvivesExactlyAlone | skills/subagent-driven-development/scripts/codex_worker/runtime.py:338-342 | in every run a publication keeps its snapshot to its end, whatever follows short of its own release or another publication of the turn, if and only if no other publication of the turn was in flight when it began |
| RuntimeProtection.OverlapLoses | skills/subagent-driven-development/scripts/codex_worker/runtime.py:338-342 | with two publications of a turn in flight, the end of one and enough new completions evict the snapshot of the other |
| RuntimeProtection.OverlapNeeds | skills/subagent-driven-development/scripts/codex_worker/runtime.py:107-114 | two publications of a turn, neither by a detachment, are separated by at least `event_limit` distinct other turns marked in between |
| RuntimeProtection.DetachedTurnOverlaps | skills/subagent-driven-development/scripts/codex_worker/runtime.py:195-209 | a run in which a detached turn is published twice at once |
| RuntimeProtection.ForgottenTurnLosesSnapshot | skills/subagent-driven-development/scripts/codex_worker/runtime.py:297-302 | a run without detachment in which a forgotten turn is published twice at once, and the end of one publication evicts the snapshot of the other |
| RuntimeHandshake.StepTracked | skills/subagent-driven-development/scripts/codex_worker/runtime.py:381-447 | one step loses track of the observed turn if and only if it is an idle read that neither finds nor reports it, and finds it again if and only if it re-observes or commits it or ends the handshake |
| RuntimeHandshake.MismatchUnreachable | skills/subagent-driven-development/scripts/codex_worker/runtime.py:495-498 | in every run an awaiting start with an active turn has observed it, so the mismatch branch is never taken and acceptance depends on the observed id alone |
| RuntimeHandshake.ResponseIsAccountedFor | skills/subagent-driven-development/scripts/codex_worker/runtime.py:478-500 | over every run, an accepted response leaves its turn active or committed since the reservation if and only if no idle read forgot it for good: every one that did was followed by a step that accounted for it again |
| RuntimeHandshake.ResponseWithoutReads | skills/subagent-driven-development/scripts/codex_worker/runtime.py:460-500 | in particular when no read came between reservation and response |
| RuntimeHandshake.IdleReadLosesTurn | skills/subagent-driven-development/scripts/codex_worker/runtime.py:419-419 | a run in which an idle read makes an accepted response's turn neither active nor committed |
| CallbackOutbox.PerformGrows | skills/subagent-driven-development/scripts/codex_worker/callback_store.py:163-260 | no operation, an import by a live resolution included, removes an event or binding, reverts a written entry, lowers an attempt count, changes a pending payload or changes a route |
| CallbackOutbox.RecordingSucceeds | skills/subagent-driven-development/scripts/codex_worker/callback_store.py:213-240 | recording an outcome fails exactly for empty arguments or an unknown event |
| CallbackOutbox.BindExactly | skills/subagent-driven-development/scripts/codex_worker/callback_store.py:176-185 | a binding is accepted if and only if its session has none or the very same |
| CallbackOutbox.EnqueueExactly | skills/subagent-driven-development/scripts/codex_worker/callback_store.py:191-205 | an event is accepted if and only if its session is bound and owns it; a new one waits with no attempts, a known one stays as it is |
| CallbackOutbox.AttemptIsRecorded | skills/subagent-driven-development/scripts/codex_worker/callback_store.py:213-240 | a recorded attempt counts on the entry, closes it when written, and leaves on the binding what became of which event, why, when, the how-manieth time and of which turn; nothing else changes |
| CallbackOutbox.RepeatedFaultsCount | skills/subagent-driven-development/scripts/codex_worker/callback_store.py:242-260 | a run of faults of one event counts on from the last attempt at it, and from nothing otherwise |
| CallbackStores.CallbackStore.BindSession | skills/subagent-driven-development/scripts/codex_worker/callback_store.py:176-185 | binding is idempotent and otherwise immutable |
| CallbackStores.CallbackStore.EnqueueTerminal | skills/subagent-driven-development/scripts/codex_worker/callback_store.py:191-205 | an event is enqueued once; a repeat returns its entry while pending and nothing once written |
| CallbackStores.CallbackStore.PendingEntries | skills/subagent-driven-development/scripts/codex_worker/callback_store.py:207-211 | every pending entry of the session exactly once |
| CallbackStores.CallbackStore.RecordFailure | skills/subagent-driven-development/scripts/codex_worker/callback_store.py:213-225 | a failed attempt is counted on a pending entry only |
| CallbackStores.CallbackStore.RecordDelivery | skills/subagent-driven-development/scripts/codex_worker/callback_store.py:227-240 | a delivery empties and closes a pending entry and changes nothing else later |
| CallbackStores.CallbackStore.RecordTerminalFault | skills/subagent-driven-development/scripts/codex_worker/callback_store.py:242-260 | a fault is recorded on an existing binding, counting repeats of the same event |
| CallbackStores.CallbackStore.ReplaceSnapshot | skills/subagent-driven-development/scripts/codex_worker/callback_store.py:163-174 | refused exactly when an event's session is unbound, and otherwise reads back as the snapshot |
| CallbackStores.SnapshotRoundTrip | skills/subagent-driven-development/scripts/codex_worker/callback_store.py:324-329 | the state a snapshot becomes reads back as the same snapshot |
| CallbackStores.ImportIsUnion | skills/subagent-driven-development/scripts/codex_worker/migration.py:931-943 | importing another store's snapshot is accepted if and only if the union has unique keys and no unbound event, and is then that union |
| CallbackDelivery.WrittenOnlyAfterDelivery | skills/subagent-driven-development/scripts/codex_worker/callback_dispatcher.py:206-240 | over all runs with imports, restarts and failed writes a written event was written at the start, had a send of it return, or arrived written; written events, ids, counts and routes only grow |
| CallbackDelivery.PendingLeftBySendOnly | skills/subagent-driven-development/scripts/codex_worker/callback_dispatcher.py:473-495 | an event that is pending at any time of such a run is written later only after a send of it returned |
| CallbackDelivery.NeverSentAfterWritten | skills/subagent-driven-development/scripts/codex_worker/callback_dispatcher.py:473-495 | whenever the consumer sends, however stale its batch, the event is pending on disk with that very payload |
| CallbackDelivery.AttemptsAreSends | skills/subagent-driven-development/scripts/codex_worker/callback_dispatcher.py:473-495 | recorded attempts of an event never exceed those it came with plus its real sends |
| CallbackDelivery.OutcomeIsRecorded | skills/subagent-driven-development/scripts/codex_worker/callback_dispatcher.py:473-495 | a send that returned closes the event, one that raised counts with its reason, whenever the write reaches the disk |
| CallbackDelivery.BatchIsSentInOrder | skills/subagent-driven-development/scripts/codex_worker/callback_dispatcher.py:222-236 | until it polls again or stops, the consumer sends what it polled, each event once and in order, whatever others do to the store |
| TerminalEvents.EventIdsDistinct | skills/subagent-driven-development/scripts/codex_worker/callback_dispatcher.py:21-23 | event ids are equal exactly for equal session, turn and kind |
| CallbackSafety.StepSafe | skills/subagent-driven-development/scripts/codex_worker/callback_dispatcher.py:101-400 | every step of any thread keeps single ownership, one result, tracking and evidence for a turn |
| CallbackSafety.SingleProjection | skills/subagent-driven-development/scripts/codex_worker/callback_dispatcher.py:372-400 | the projector runs at most once per turn; processor and client go on with the same completion or error, and the client returns it |
| CallbackSafety.OnePersister | skills/subagent-driven-development/scripts/codex_worker/callback_dispatcher.py:265-359 | at most one thread persists a turn at a time, and the ownership set says which |
| CallbackSafety.CleanupTakesNothing | skills/subagent-driven-development/scripts/codex_worker/callback_dispatcher.py:457-471 | cleanup never discards a projection or persistence still owned, and runs only when nobody processes the turn and its client is done |
| CallbackSafety.NothingDroppedSilently | skills/subagent-driven-development/scripts/codex_worker/callback_dispatcher.py:265-359 | a callback-done turn has its event in the outbox, a recorded fault or no enabled binding; a turn that left tracking has that or its loss is reported |
| CallbackSafety.LossIsReported | skills/subagent-driven-development/scripts/codex_worker/callback_dispatcher.py:439-455 | once its client is through, a turn that left without evidence has had its loss emitted |
| CallbackRetry.NothingGivenUp | skills/subagent-driven-development/scripts/codex_worker/callback_dispatcher.py:206-303 | while the dispatcher runs, the client does not fall back and the projector does not raise: a done or forgotten turn has its event in the outbox or no enabled binding, nothing is abandoned, a turn not done is in hand or can be claimed, and a done one nobody needs is forgotten |
| CallbackRetry.FailedPersistIsRetried | skills/subagent-driven-development/scripts/codex_worker/callback_dispatcher.py:206-300 | then a failed persist, its fault recorded or not, leads back to persisting the same completion without another projection |
| CallbackRetry.FailedPersistSettles | skills/subagent-driven-development/scripts/codex_worker/callback_dispatcher.py:278-328 | a failed persist leaves the turn open exactly when the processor made it and the dispatcher runs; otherwise a recorded fault makes it done, and without one it is abandoned with a loss |
| CallbackRetry.FailedProjectionSettles | skills/subagent-driven-development/scripts/codex_worker/callback_dispatcher.py:344-359 | a failed projection leaves it open exactly when its fault could not be recorded while the dispatcher runs |
| CallbackBound.BoundTurnIsStored | skills/subagent-driven-development/scripts/codex_worker/callback_dispatcher.py:265-303 | then, if the session has an enabled binding to begin with, a done or forgotten turn has its event in the outbox |
| CallbackService.HandedOffIsServed | skills/subagent-driven-development/scripts/codex_worker/callback_dispatcher.py:189-240 | and a turn that was handed off is done, forgotten, in the processor's hands or ready to be claimed, whatever came since |
| CallbackBound.QueuedIsTheResult | skills/subagent-driven-development/scripts/codex_worker/callback_dispatcher.py:265-315 | whatever either thread enqueues for a turn is its one projected completion, inline or by reference, under the turn's own event id |
| CallbackClient.ClientFallsBackExactly | skills/subagent-driven-development/scripts/codex_worker/callback_dispatcher.py:121-149 | a client persists by itself only after it found no worker, and having found one returns its completion at once; it fails to start exactly when neither its own snapshot nor one handed off before is terminal |
| CallbackDispatcher.TerminalCallbackDispatcher.ObserveTurn | skills/subagent-driven-development/scripts/codex_worker/callback_dispatcher.py:101-110 | a context is recorded once and is immutable; every other turn is unchanged |
| CallbackDispatcher.TerminalCallbackDispatcher.HandOff | skills/subagent-driven-development/scripts/codex_worker/callback_dispatcher.py:189-198 | the first terminal snapshot stays; every other turn is unchanged |
| CallbackDispatcher.TerminalCallbackDispatcher.ClaimReady | skills/subagent-driven-development/scripts/codex_worker/callback_dispatcher.py:200-213 | a ready key is claimed, or there is none; every other turn is unchanged |
| CallbackDispatcher.TerminalCallbackDispatcher.EnterProject | skills/subagent-driven-development/scripts/codex_worker/callback_dispatcher.py:372-384 | the completion, the error, ownership or waiting, as the dicts say; every other turn is unchanged |
| CallbackDispatcher.TerminalCallbackDispatcher.FinishProject | skills/subagent-driven-development/scripts/codex_worker/callback_dispatcher.py:390-400 | the result is recorded and ownership given up; every other turn is unchanged |
| CallbackDispatcher.TerminalCallbackDispatcher.EnterPersist | skills/subagent-driven-development/scripts/codex_worker/callback_dispatcher.py:265-275 | settled, blocked or granted ownership of persistence; every other turn is unchanged |
| CallbackDispatcher.TerminalCallbackDispatcher.EnterFallbackPersist | skills/subagent-driven-development/scripts/codex_worker/callback_dispatcher.py:304-310 | the client's fallback owns persistence exactly when nobody does and the turn is not settled; every other turn is unchanged |
| CallbackDispatcher.TerminalCallbackDispatcher.EnterFaultOnce | skills/subagent-driven-development/scripts/codex_worker/callback_dispatcher.py:335-343 | settled, blocked or granted, without looking at abandonment; every other turn is unchanged |
| CallbackDispatcher.TerminalCallbackDispatcher.CleanUp | skills/subagent-driven-development/scripts/codex_worker/callback_dispatcher.py:457-471 | all of a turn is forgotten exactly when it is settled, its client done and nobody processes it; every other turn is unchanged |
| CallbackDispatcher.TerminalCallbackDispatcher.FinishDone | skills/subagent-driven-development/scripts/codex_worker/callback_dispatcher.py:297-302 | persistence given up, done, cleaned up if possible; every other turn is unchanged |
| CallbackDispatcher.TerminalCallbackDispatcher.FinishAbandoned | skills/subagent-driven-development/scripts/codex_worker/callback_dispatcher.py:288-292 | persistence given up, abandoned, cleaned up if possible; every other turn is unchanged |
| CallbackDispatcher.TerminalCallbackDispatcher.SettlePersist | skills/subagent-driven-development/scripts/codex_worker/callback_dispatcher.py:278-296 | a failed persist: done, abandoned with a loss, or kept for another try; every other turn is unchanged |
| CallbackDispatcher.TerminalCallbackDispatcher.SettleFallback | skills/subagent-driven-development/scripts/codex_worker/callback_dispatcher.py:314-328 | a failed fallback: done, or abandoned with a loss; every other turn is unchanged |
| CallbackDispatcher.TerminalCallbackDispatcher.SettleProjectionFault | skills/subagent-driven-development/scripts/codex_worker/callback_dispatcher.py:344-359 | a failed projection: done, abandoned with a loss, or kept; every other turn is unchanged |
| CallbackDispatcher.TerminalCallbackDispatcher.ReleaseKey | skills/subagent-driven-development/scripts/codex_worker/callback_dispatcher.py:248-263 | the processor gives the key back; every other turn is unchanged |
| CallbackDispatcher.TerminalCallbackDispatcher.ClientFinished | skills/subagent-driven-development/scripts/codex_worker/callback_dispatcher.py:151-155 | the client is done; every other turn is unchanged |
| StrictModels.LoadUndoesDump | skills/subagent-driven-development/scripts/codex_worker/commands.py:155-237 | for every annotation, loading the dump of a constructed and checked value gives the value back |
| StrictModels.ScalarsAreStrict | skills/subagent-driven-development/scripts/codex_worker/commands.py:187-237 | each scalar annotation takes the values of its own type alone, so none checks against two; loading takes the same values |
| StrictModels.AnyIsJson | skills/subagent-driven-development/scripts/codex_worker/commands.py:175-190 | `Any` takes exactly the values with nothing in them, at any depth, but null, scalars, lists and text-keyed dictionaries |
| StrictModels.DumpUndoesLoad | skills/subagent-driven-development/scripts/codex_worker/commands.py:215-237 | a loaded value is constructed and checked, and dumping it gives the input back if and only if the input held exact enum values |
| StrictModels.StringEnumsReproduceJson | skills/subagent-driven-development/scripts/codex_worker/commands.py:215-237 | with string enums only, any JSON that loads is reproduced by dumping the result |
| FacadeFaults.FaultRoundTrip | skills/subagent-driven-development/scripts/codex_worker/commands.py:794-804 | a fault written out and read back is the same fault |
| FacadeFaults.ReadExactly | skills/subagent-driven-development/scripts/codex_worker/commands.py:765-804 | exactly what is read as a fault: the envelope of a valid fault whose code compares equal to its code and whose details, ids and actions are its own or null where it has the defaults |
| FacadeFaults.WriteUndoesRead | skills/subagent-driven-development/scripts/codex_worker/commands.py:765-804 | writing out what was read gives the input back if and only if its code was an integer and nothing was left to a default |
| FacadeFaults.FloatCodeIsRead | skills/subagent-driven-development/scripts/codex_worker/commands.py:771-774 | every fault is also read from an envelope whose code is a float, which writing it out does not give back |

## Left out

- Filesystem ownership, modes, links, inode checks and fsync: only atomic publish is kept.
- Waiting, timeouts and clocks: a wait is a step that is not enabled, a timeout a missing response. No liveness is claimed.
- Process spawning, sockets, readiness polling and the JSONL and WebSocket transports (`service.py`, `instance.py`, `rpc.py`, `app_server.py`, most of `websocket_transport.py`).
- CLI parsing, help, recovery commands, fault wording, `projection.py`, `facade.py`, `claude_transport.py`.
- Syntax checks of names, UUIDs, paths, listeners and statuses; the byte size of an artifact, which follows from its digest.
- `LiveMigrationCoordinator`'s locks: to the outbox a live import or resolution is one step (`ImportOp`). The registry's decoding and old schema versions, and a save that raises after its file was replaced.
- Models that override `from_dict` to accept older field sets (`commands.py:366`, `539`, `563`, `578`).
- `RuntimeStore.wait`, `status` and `agent_messages`, thread-to-session lookup, and validation of the raw thread read: the step starts from the validated reading.
- A `thread/read` whose `thread` is neither an object nor null: it raises outside the inventory's own fault, and is modelled as that fault.
- The diagnostic callback and the projector's own work in the dispatcher; the projector returns any completion or raises.
- Worker messages sent directly rather than through the outbox.
- MigrationPlanner.PlanMerge: which of several present faults is reported first is not modelled.
- GatewayDrain.DrainSafety: stated for runs whose closes under a running pump are gentle; after any other it is false (`EarlyCloseExact`).
- MigrationRecovery.CrashThenReplayCompletes: requires every outbox event to be bound, without which it is false (`UnboundReplayNeverCompletes`).
- RuntimePublication.PublishedOnceWhileRemembered: is about completions and reads; the publication of a detached turn is not marked (`DetachedTurnOverlaps`).
- CallbackStores.CallbackStore.RecordDelivery: a write that fails or is only partly reported is modelled in `CallbackDelivery`, not in the class.
- CallbackRetry.NothingGivenUp: for runs in which the dispatcher is not stopped, the client does not fall back and the projector does not raise; in the others a recorded fault settles a turn (`NothingDroppedSilently`).
