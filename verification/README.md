# hof-ops verification

A Dafny model of the logic with which hof-ops plans and applies changes to a host, and proofs about it.
`dafny verify dfyconfig.toml` checks the whole project.

Three parts of the system are modelled.

**The apply protocol** (`scripts/apply.mjs`, `scripts/operation-journal.mjs`, `scripts/operation-v2.mjs`,
`scripts/target-mutate.mjs`, the state role). `ApplyProtocol` is a state machine: each of its predicates is one step
of one client, and any number of clients take steps in any order. A client inspects the target before it holds the
lease, so that its plan may be out of date by any number of generations; it may stop between any two steps, the
execution lease may be lost at any time, and fenced writes check the lease at the moment they happen. `ApplySafety`,
`ApplyEffects`, `ApplyChain` and `ApplyDurability` are the invariants, `ApplyTheorems` the results over all runs.
`ApplyGuards` says what a plan is made from and who may write what. `ApplyCompletion` says what every completed
operation has done, `ApplyResume` exactly which interrupted operations can still be completed, and `ApplyFresh` that a
plan which fits can be run to its end. `CrashRecovery` is the dispatch loop of one operation as a class, with a budget
of writes before each crash and of dispatches before one fails. `StepHistory` and `EventLog` are the decisions a
resume makes from the event log, `JournalStore` and `JournalWriters` the compare-and-swap writers of backup and
restore journals.

**The planner** (`scripts/plan.mjs`, `scripts/plan-v2.mjs`, the action whitelists, the catalog check).
`Planner.BuildPlan` follows `buildPlan` call by call. What it computes is specified by predicates over the units of
the baseline and of the desired topology (`PlanDrift`, `PlanDiff`, `PlanFolds`, `PlanBlockers`), so that every result
holds whatever order the objects of the documents are iterated in. `PlanHost` gives each operation its effect on a
small host (containers, images, volumes, networks, schemas, Compose file, generated files), and `PlanLaws`,
`PlanGuards`, `PlanConvergence`, `PlanReadiness`, `PlanImages`, `PlanIdempotence`, `PlanRetention` and `PlanDispatch`
state the results. `PlanExamples` and `PlanStale` hold concrete inputs: that the hypotheses hold together, and where
the code does less than its comments say. `DependencySort`, `SortLaw` and `CatalogCheck` are the start order and the
cycle search.

**The backup and restore validators** (`scripts/backup-flow.mjs`, `scripts/backup-ids.mjs`). `BackupFlow` and
`RestoreFlow` are the checks by index; `BackupShape` and `RestoreShape` prove that they accept exactly one shape of
flow, and what that shape means for units and data; `FlowLaws` says the same place by place.

The planner's results rest on these hypotheses about what it is given, each a predicate of its own: the catalog has
passed its validation; a disabled service has no rendered units; a database unit is named after its component and is
the only unit with that artifact; the release declares a schema step for every enabled database; equal configuration
fingerprints mean equal images; an applied baseline is observed with containers, volumes, networks and generated files
available; the image of every container is on the host (images only); the catalog fixes the units of an enabled
service (retention only); every database volume of the baseline is recorded in its volumes (idempotence only); a
change of volumes or networks shows in the topology digest (`CommitIsLast` only).

Of the two Docker modules the roles use, the model takes that `docker_volume` leaves a volume with other labels as it
is, and that `docker_network` makes a network with other labels anew.

Where the code and its own comments disagree the model follows the code, and gives the exact condition.

- `scripts/plan.mjs:418-422`: entries without a dependency between them keep their order. `SortLaw.OvertakingExample`
  refutes it, and `SortLaw.PairLaw` says for every pair of entries which one comes first.
- `scripts/plan.mjs:397-401`: a migration of a service that stays enabled is always blocked.
  `PlanExamples.MissingContainerMigrates` and `PlanExamples.UnknownSchemaMigrates` refute it, and
  `PlanReadiness.MigratedWhileEnabled` states exactly when it happens.
- `ansible/roles/service/tasks/main.yml:62-64`: the image of a unit that is started has been pulled by the same plan.
  `PlanExamples.PrunedImageIsMissed` refutes it, and `PlanImages.StepsFindImages` states exactly when every image is
  there.
- `scripts/apply.mjs:1884-1893`: after a failed apply a fresh plan and apply reconcile the installation.
  `PlanStale.FailedUpdateStays` refutes it for a unit that the failed apply has started with another configuration of
  the same image, and `PlanConvergence.Convergence` states exactly when an apply ends at the desired configuration.

## Model

| member | source | states |
|---|---|---|
| `CatalogCheck.FindCycles` | scripts/contracts.mjs:141-154 | The recursive search ends on every graph, also with unknown dependencies and self-loops, and reports an error if and only if the graph has a cycle |
| `CatalogCheck.CycleSearch.Visit` | scripts/contracts.mjs:143-153 | One visit marks the service and everything it reaches, keeps the finished services in dependency order, and adds an error only when there is a cycle |
| `CatalogCheck.ValidateCatalog` | scripts/contracts.mjs:102-157 | No error if and only if ids and artifacts are unique, the three mandatory services are there, dependencies are listed and not the service itself, health checks name own artifacts, and no services lead back to where they began along their own lists; a cycle error exactly in the last case, also with duplicate ids |
| `Catalog.DependsOnExactly` | scripts/contracts.mjs:150 | The graph that is searched and sorted by has an edge exactly where the list of the last entry for a service names the other one |
| `Catalog.Dependencies` | scripts/plan.mjs:424 | The Map from service ids to their lists is that graph |
| `Graph.LongWalkHasCycle` | scripts/contracts.mjs:143-153 | A walk longer than the number of services runs through a cycle |
| `Graph.OrderRefutesCycle` | scripts/contracts.mjs:143-153 | Where every dependency comes first in some order, no walk returns to its start |
| `DependencySort.TopologicallySortByDependency` | scripts/plan.mjs:423-450 | The sort ends on every input, throws if and only if the dependencies among the listed services have a cycle, and otherwise returns the least valid order |
| `DependencySort.GreedyIsLeast` | scripts/plan.mjs:432-448 | Always taking the earliest ready entry gives the index-lexicographically least order in which all units of a dependency come first |
| `DependencySort.UnchangedExactly` | scripts/plan.mjs:418-422 | The list comes back as it was if and only if every entry already stood behind all that its service depends on |
| `DependencySort.SameServiceKeepsOrder` | scripts/plan.mjs:418-422 | Two units of one service keep their order |
| `SortLaw.PairLaw` | scripts/plan.mjs:418-422 | The exact order of any two entries, related or not: the one with the smaller key comes first, where an entry's key is the last entry of the list that it needs, then the last of those of its needs that need that one, down to itself |
| `SortLaw.KeyExists` | scripts/plan.mjs:418-422 | Every entry of a sortable list has such a key |
| `SortLaw.StaysBefore` | scripts/plan.mjs:418-422 | An entry stays before a later one if everything it needs, directly or indirectly, stands before that one, too |
| `SortLaw.IsOvertaken` | scripts/plan.mjs:418-422 | It is overtaken if something it needs stands behind the later one and behind all that the later one needs |
| `SortLaw.OvertakingExample` | scripts/plan.mjs:418-422 | The comment that unrelated entries keep their order is refuted by the sort's own result: A needing C, B, C becomes B, C, A |
| `DependencySort.CycleHasNoOrder` | scripts/plan.mjs:439-441 | With a cycle among the listed services no valid order exists |
| `DependencySort.CoherentCatalogNeverStuck` | scripts/plan.mjs:432-440 | A catalog that passes validation never makes the sort throw, for any list of entries and any graph whose edges are from the services' own lists |
| `DependencySort.DependencyComesFirst` | scripts/plan.mjs:432-448 | In the result every unit of a dependency stands before every unit that needs it |
| `StepHistory.DecideStepResumption` | scripts/operation-journal.mjs:178-212 | The loop with its attempt map computes the specified decision on every event list, with arbitrary attempt numbers |
| `StepHistory.DecideExact` | scripts/operation-journal.mjs:178-212 | A decision other than "corrupted" is given exactly for no events, or failed attempts 1..k-1 followed by an attempt k that is started, succeeded or failed, and that last attempt fixes the answer |
| `EventLog.ReadAndValidateEvents` | scripts/apply.mjs:538-591 | The streaming check accepts a log if and only if it is of this operation and a concatenation of non-empty per-step blocks in plan order, all but the last deciding "skip"; grouping then returns exactly those blocks |
| `EventLog.CheckPlanOrder` | scripts/apply.mjs:552-588 | The one-pass check with a single open block decides plan order exactly |
| `EventLog.FollowExact` | scripts/apply.mjs:560-588 | An event may be added to an accepted log exactly when it continues the open block, or opens the next one after a block that decides "skip" |
| `EventLog.BlocksUnique` | scripts/apply.mjs:538-591 | A log has at most one decomposition into blocks |
| `EventLog.StepIndexIsLast` | scripts/apply.mjs:549 | Of several operations with one id the last one counts, as in a Map |
| `EventLog.GroupByStep` | scripts/apply.mjs:1953-1960 | Under each step id exactly the events of that step, in their order |
| `EventLog.OfStepIsBlock` | scripts/apply.mjs:1953-1960 | The events of a step are its block of the log |
| `ApplyLogs.OutcomeByLength` | scripts/apply.mjs:1624-1650 | In a log that the protocol can write the decision for a step follows from the length of the log alone |
| `ApplyLogs.LogAccepted` | scripts/apply.mjs:538-591 | Every log the protocol can write is accepted by a resume |
| `ApplySafety.StepKeepsLogs` | scripts/apply.mjs:1068-1940 | Every step of every client keeps the logs well formed, and the lease holder knows its own log exactly |
| `ApplyEffects.StepKeepsEffects` | scripts/apply.mjs:1624-1940 | Every step keeps each ordinary effect single and behind its own started event |
| `ApplyChain.StepKeepsChain` | ansible/roles/state/tasks/main.yml:55-236 | Every step keeps the snapshots and pointers a chain of generations |
| `ApplyDurability.StepKeepsCommits` | scripts/apply.mjs:1648-1940 | Every step keeps recorded commits and recorded successes true |
| `ApplyDurability.EndedStays` | scripts/target-mutate.mjs:946-958 | A journal that has ended is never rewritten and nothing is added to its log |
| `ApplyTheorems.RunKeepsInv` | scripts/apply.mjs:866-1951 | The invariants hold in every state of every run, for any number of clients, crashes and lost leases |
| `ApplyTheorems.AtMostOnce` | scripts/apply.mjs:1809-1861 | Over all runs every operation other than state.commit takes effect at most once, and only behind its started event |
| `ApplyTheorems.CommitDispatchedAgainOnlyAfterPublish` | scripts/apply.mjs:1648-1770 | state.commit is dispatched again, and a pointer is written, only while a snapshot is published that has the plan's generation, installation and content and this operation's name |
| `ApplyTheorems.GenerationStep` | scripts/apply.mjs:390-392 | The generation of current.json moves by at most one, and only when state.commit writes it |
| `ApplyTheorems.GenerationChain` | scripts/apply.mjs:473-489 | Over any run no generation goes back, published snapshots are never altered, the installation keeps its id, and ended operations stay as they ended |
| `ApplyTheorems.SnapshotsAreTheChain` | ansible/roles/state/tasks/main.yml:76-236 | One snapshot per generation up to the current one, at most one more, and current.json is that of its generation up to appliedAt |
| `ApplyTheorems.EveryLogAccepted` | scripts/apply.mjs:538-591 | Whatever has happened, a resume accepts the recorded events |
| `ApplyTheorems.SucceededIsTrue` | scripts/apply.mjs:1229-1303 | A journal says "succeeded" only if every step has its started and its succeeded event in its place and, with a state.commit, the generation that it names is published with the plan's content under this operation's name, and reached by current.json |
| `ApplyCompletion.StepKeepsWork` | scripts/apply.mjs:1624-1940 | Every step keeps it that an ordinary step is worked on by one client at a time, that effects follow the order of the plan, and that a recorded success had its effect |
| `ApplyCompletion.SucceededHasRun` | scripts/apply.mjs:1624-1940 | A succeeded operation has had the effect of each ordinary step exactly once, in the order of the plan |
| `ApplyCompletion.SucceededHasLanded` | scripts/apply.mjs:507-526 | Field by field what a succeeded operation with a state.commit has left: the snapshot of its generation for good, and current.json and topology.json until another operation takes the lock, each with the plan's content, generation and installation, or as a new installation under its own id |
| `ApplyCompletion.CompletedRunsAgree` | scripts/apply.mjs:1229-1303 | Crash transparency over all runs: two succeeded operations with the same plan agree in effects, log and journal, and in snapshot and pointers up to appliedAt, which say what the plan is to commit; they are what a run without trouble leaves |
| `ApplyResume.ResumeCompletes` | scripts/apply.mjs:1624-1940 | From any reachable state of the condition below, one more client completes the operation and releases the lock |
| `ApplyResume.AbandonedForever` | scripts/apply.mjs:1806-1810 | A started step that nobody works on and that is no published commit is never resolved, whatever any number of clients do |
| `ApplyResume.ResumableExactly` | scripts/apply.mjs:1076-1303 | An operation that was left behind can still be completed if and only if no step has failed, a step left started is state.commit with its snapshot published, and its generation has not been taken; or its journal says that it has succeeded and its commit is there |
| `ApplyResume.SucceededCanBeClosed` | scripts/apply.mjs:1229-1303 | An operation with a commit whose journal says that it has succeeded while its lock is still held can always be closed by one more client |
| `ApplyResume.StalePlanIsRefused` | scripts/apply.mjs:1406-1412 | An operation whose plan was out of date by a generation or more, unless it was the one that committed that generation, publishes nothing and never completes, also when a resume skips the check under the lock |
| `ApplyResume.TakenGenerationBlocks` | ansible/roles/state/tasks/main.yml:76-236 | Once a snapshot is published, no other operation that is to commit the same generation ever completes |
| `ApplyFresh.FreshCompletes` | scripts/apply.mjs:961-1303 | In every reachable state with the lock free, a plan that fits the committed state and whose generation nobody has published can be run to its end under any new operation id |
| `ApplyGuards.PlanIsFromInspection` | scripts/apply.mjs:955-1012 | Every plan comes from an inspection that its client made before it acquired the lease and that found one commit, and is for the generation and installation that were there then |
| `ApplyGuards.CheckedPlanStaysCurrent` | scripts/apply.mjs:1396-1412 | A plan that passes the check under the lock stays current, in generation and installation, until its own commit or until another operation takes the lock |
| `ApplyGuards.RecordsUnderLease` | scripts/target-mutate.mjs:477-560 | Nobody takes the lock, creates or changes a journal or adds to a log without holding the lease at that moment |
| `ApplyGuards.LeaseMoves` | scripts/target-mutate.mjs:1221-1262 | The lease never passes from one client to another without having been free, and only to a client that acquires it |
| `ApplyGuards.LockMoves` | scripts/target-mutate.mjs:316-335 | The lock is taken only when it is free, together with a new journal in progress and an empty log, and goes only by a client that is closing that operation |
| `ApplyGuards.ClosedIsOver` | scripts/apply.mjs:1396-1412 | A client comes to release the lock only from the check under the lock, or when the journal has ended: by its own failure record, or as succeeded |
| `ApplyGuards.NoEmptyApply` | scripts/apply.mjs:1329 | No journal is ever created for an applied plan without operations |
| `ApplyGuards.StateIsWrittenByLatest` | ansible/roles/state/tasks/main.yml:76-236 | Snapshots and current.json are written only by the last operation that took the lock, and say what its plan is to commit |
| `ApplyGuards.CommitIsDispatchedAgain` | scripts/apply.mjs:1648-1750 | An interrupted commit is dispatched again only while its own snapshot is published and a pointer is missing |
| `ApplyGuards.CommitIsRecovered` | scripts/apply.mjs:1751-1797 | Its success is recorded only when snapshot, current.json and topology.json all say what it was to commit |
| `ApplyGuards.FailureIsOfOwnStep` | scripts/apply.mjs:1862-1900 | A failure is recorded only by the client that has started the step, never for a second dispatch |
| `ApplyGuards.TroubleIsPossible` | scripts/apply.mjs:1862-1900 | Lost leases, stops, and failures of any dispatch, with or without its effect, are possible at any time in the model |
| `CrashRecovery.Operation.DispatchLoop` | scripts/apply.mjs:1624-1861 | The loop refuses, without touching anything, exactly the states in which a step failed or a step other than a published commit was left started |
| `CrashRecovery.Operation.RecoverCommit` | scripts/apply.mjs:1648-1800 | An interrupted commit whose own snapshot is published is finished, by dispatching again only if the pointers are not there |
| `CrashRecovery.Operation.Round` | scripts/apply.mjs:1229-1303 | A round completes the operation, is refused exactly in a stuck state, ends in a recorded failure with the lock released, or is interrupted where a resume can tell |
| `CrashRecovery.Operation.CrashAndResume` | scripts/apply.mjs:1229-1303 | Any number of rounds with crashes and failing dispatches followed by one left in peace completes the operation, unless a dispatch has failed or a crash has left it stuck |
| `CrashRecovery.CompletedAgree` | scripts/apply.mjs:430-441 | Any two completed runs leave the same log and the same effects up to the replay of the commit, and snapshot, topology and current state that say what the plan is to commit |
| `JournalStore.Target.AcquireLockAndJournal` | scripts/target-mutate.mjs:316-335 | Creates both if and only if the lease holds, the journal is not there and the lock is free; otherwise leaves everything as it was, and says which it was |
| `JournalStore.Target.ReleaseLock` | scripts/target-mutate.mjs:618-633 | Removes the lock if and only if it is this operation's |
| `JournalStore.Target.UpdateJournalStatus` | scripts/target-mutate.mjs:936-958 | Writes the candidate if and only if the lease is still the writer's and the journal is byte for byte what was read; otherwise changes nothing, and says that the lease was lost exactly when it was |
| `JournalStore.Target.AppendEvent` | scripts/target-mutate.mjs:998-1048 | Appends if and only if the lease holds, the journal is byte for byte what was read and it is in progress; otherwise changes nothing, and says exactly when the lease was lost and when the journal had succeeded or failed |
| `JournalStore.Target.WriteJournalStatus` | scripts/operation-v2.mjs:388-408 | Read, validate and swap: written exactly when the lease holds, both documents pass their schema and the bundle check passes, the persisted journal is in progress and only status and committed generation differ |
| `JournalStore.Target.WriteEvent` | scripts/operation-v2.mjs:447-483 | Written exactly when the lease holds, event and journal pass their schema and bundle checks, the persisted journal is of this kind and in progress, and the event names a step of its embedded plan |
| `JournalStore.FindStep` | scripts/operation-v2.mjs:474 | The first step with the id of the event, and none only if the plan has no such step |
| `JournalStore.MayAppendBinds` | scripts/operation-v2.mjs:468-474 | An event that passes the checks is bound to the operation, its kind, a step of the plan and that step's destination |
| `JournalWriters.StepKeepsInv` | scripts/operation-v2.mjs:355-483 | Every step of every interleaving keeps the store and what each writer has validated consistent |
| `JournalWriters.JournalsEvolve` | scripts/operation-v2.mjs:366-408 | Over any interleaving of any number of writers, immutable fields never change, logs only grow, and a journal that is not in progress and its log never change |
| `JournalWriters.EventsAreBound` | scripts/operation-v2.mjs:447-483 | Every event in a reachable log names a step of its own journal's embedded plan |
| `JournalWriters.EndedBySwap` | scripts/operation-v2.mjs:246-251 | A journal leaves "in progress" only by a swap, under the lease, against the very journal, still in progress, that was validated |
| `JournalWriters.LockHasJournal` | scripts/target-mutate.mjs:283-301 | Whenever a lock is there, the journal that it names is there for good |
| `JournalWriters.LockMoves` | scripts/target-mutate.mjs:316-335 | A lock is taken only when there is none, by the creator of the journal it names, and goes only by the release of that operation |
| `JournalWriters.WrittenUnderLease` | scripts/target-mutate.mjs:477-560 | No journal is created or changed and no event added without the lease at that moment, and none is added to a journal that is not in progress |
| `JournalWriters.RefusedCreationLeavesNothing` | scripts/target-mutate.mjs:324-335 | A creation that finds the lock taken leaves locks, journals and logs as they were |
| `JournalWriters.GuardIsLetGo` | scripts/target-mutate.mjs:228-248 | A writer that holds the guard can be stopped at any time and lets go of it, and what it has created stays |
| `JournalWriters.CanCreate` | scripts/operation-v2.mjs:355-362 | Wherever a run has come, a writer with the lease can create a new journal and its lock while no lock is held |
| `JournalWriters.CanAppend` | scripts/operation-v2.mjs:447-483 | It can add an event for any step of the plan while the journal is in progress |
| `JournalWriters.CanUpdate` | scripts/operation-v2.mjs:388-408 | And it can end the journal |
| `PlanDrift.ComputeDrift` | scripts/plan.mjs:107-145 | Exactly the missing, manually changed and unmanaged units; nothing when containers could not be listed |
| `PlanDrift.ComputeMissing` | scripts/plan.mjs:152-159 | Exactly the expected names that no own resource has; nothing when the kind could not be listed |
| `PlanDrift.ComputeGeneratedDrift` | scripts/plan.mjs:174-192 | Exactly the recorded files that are missing, modified or unreadable, each in one class |
| `PlanDiff.DiffUnits` | scripts/plan.mjs:25-49 | One line for each unit that is new, removed, or has another fingerprint, with the right images, and no unit twice |
| `PlanFolds.FoldMissingIntoRepairs` | scripts/plan.mjs:61-74 | Adds exactly the still desired units whose container is missing and that are not touched yet |
| `PlanFolds.FoldManualChangeIntoRepairs` | scripts/plan.mjs:82-95 | Adds exactly the still desired, manually changed units that are not touched yet |
| `PlanFolds.FoldGatewayRestartForCaddyfile` | scripts/plan.mjs:349-359 | Adds the gateway exactly when its Caddyfile is written again and it is not touched yet |
| `PlanFolds.ServicesNeedingMigration` | scripts/plan.mjs:213-225 | Exactly the enabled persistent services that are new, at another schema, or get a new image, other than those that come back at their retained schema |
| `PlanFolds.FoldMigrationOnlyIntoUpdates` | scripts/plan.mjs:331-342 | Adds exactly the database units that are migrated and not touched yet |
| `PlanBlockers.ComputeUpgradeBlockers` | scripts/plan.mjs:254-296 | No blocker exactly when release, images and schemas of enabled services stay and no service comes back at another schema than its data |
| `PlanBlockers.ComputeRetainedServices` | scripts/plan.mjs:306-325 | The baseline's record without the services that come back and with those disabled now; no blocker exactly when every disabled persistent service is authorised |
| `PlanBlockers.MigrationBlockers` | scripts/plan.mjs:361-380 | No blocker exactly when no migration skips schema versions |
| `PlanBlockers.ComputeBlockers` | scripts/plan.mjs:614-649 | No blocker if and only if all the conditions of an executable plan hold |
| `PlanOperations.OperationList.StartUnits` | scripts/plan.mjs:588-595 | Appends a start and then a readiness wait for each entry, numbered on from the list |
| `PlanOperations.BuildOperations` | scripts/plan.mjs:462-600 | The numbered concatenation of the groups: secrets, volumes, networks, images, stops, configuration, removals, migrations, starts, commit, each under its own name |
| `PlanLaws.SecretsDelivered` | scripts/plan.mjs:470-512 | A first apply delivers all secrets, a later one exactly those that the units it starts use; once, and before any start |
| `PlanLaws.StartedUnitsHaveSecrets` | scripts/plan.mjs:470-512 | Every unit that is started has had all its secrets delivered by the same plan |
| `PlanLaws.DependenciesStartFirst` | scripts/plan.mjs:566-588 | A unit is started only behind the start and the wait of every unit that the plan starts of the services in its own service's list |
| `PlanLaws.StartsAreWaitedFor` | scripts/plan.mjs:588-595 | Every start is followed at once by the wait for its own unit |
| `PlanLaws.WaitsCanEnd` | scripts/plan.mjs:590-594 | A wait follows the start of its unit, and asks the gateway to run and every other unit to be healthy |
| `PlanLaws.OnlyWachterIsIsolated` | scripts/plan.mjs:538-547 | A network is made internal exactly if it is Wachter's |
| `PlanLaws.CaddyfileReachesGateway` | scripts/plan.mjs:344-359 | When a Caddyfile is missing, or modified and repaired, the plan writes it and then starts the gateway |
| `PlanLaws.ImagesAreDesired` | scripts/plan.mjs:550-589 | Whatever is verified, pulled or started is the desired image of a desired unit |
| `PlanLaws.MigrationFromData` | scripts/plan.mjs:374-380 | A migration names the volume and component of its service, and starts from the schema that the data is at when it runs |
| `Planner.BuildPlan` | scripts/plan.mjs:661-746 | Every plan made from a well-formed input meets the specification of a plan, and it never throws on a coherent catalog |
| `PlanHost.RunAppend` | scripts/apply.mjs:1624-1861 | Running one list of operations after another is running their concatenation |
| `PlanHost.RunStarts` | ansible/roles/service/tasks/main.yml:65-79 | The starts create exactly the listed containers from the Compose file on disk |
| `PlanHost.RunStops` | ansible/roles/service/tasks/main.yml:94-136 | The stops stop exactly the installation's own containers among the listed units |
| `PlanGuards.OthersAreLeftAlone` | ansible/roles/service/tasks/main.yml:94-136 | No operations stop or remove a container of another owner |
| `PlanGuards.VolumesStay` | ansible/roles/volume/tasks/main.yml:11-20 | No operations lose a volume or give it other labels |
| `PlanGuards.SchemaStays` | scripts/plan.mjs:385-396 | The schema of the data in a volume moves only by a migration of that volume |
| `PlanGuards.UnitStays` | ansible/roles/service/tasks/main.yml:65-136 | A unit that is neither stopped, removed nor started stays as it is |
| `PlanGuards.WrittenWhileDown` | scripts/plan.mjs:452-460 | The new Compose file is written only while every unit that the plan starts or removes is down |
| `PlanGuards.VersionsStay` | scripts/plan.mjs:254-296 | An executable plan keeps the release, the image of every unit whose configuration it changes, and the schema of every enabled database; a database that comes back has the schema of its data |
| `PlanGuards.ContainersWereSeen` | scripts/plan.mjs:614-636 | An executable plan for an existing installation has seen its containers: all are its own and recorded and, unless drift may be repaired, each recorded unit that is there runs with its recorded image |
| `PlanGuards.FilesWereSeen` | scripts/plan.mjs:637-644 | A recorded file is as recorded, or missing, or modified with leave to repair it; one that could not be read blocks the plan |
| `PlanGuards.DataIsSafe` | scripts/plan.mjs:306-318 | In an executable plan no recorded volume is missing, and no persistent service is disabled without leave to keep its data |
| `PlanConvergence.Convergence` | scripts/plan.mjs:462-600 | Running an executable plan on the host it was made for ends with exactly the desired units running with the desired image, all volumes there and none lost, all networks there as the installation's own, and the files in place; and with exactly the desired configuration, if and only if no unit that the plan leaves alone was created from another configuration of the same image |
| `PlanStale.StaleRemains` | scripts/plan.mjs:107-145 | Such a unit is as it was after any executable plan, since the drift shows image and state only |
| `PlanStale.FailedUpdateStays` | scripts/apply.mjs:1884-1893 | A failed update of a configuration leaves such a unit: neither it nor the plan that goes back is blocked, and after the latter the unit still runs with the configuration of the former |
| `PlanConvergence.SchemaConvergence` | scripts/plan.mjs:361-407 | Afterwards the data of every enabled service is at the desired schema, migrated or already there |
| `PlanReadiness.NoReadinessDeadlock` | scripts/plan.mjs:566-595 | When a readiness wait runs, its unit runs as desired, and every unit of every service in its own service's list runs with its desired image, and with its desired configuration exactly when it is not stale |
| `PlanReadiness.MigrationsRunAlone` | scripts/plan.mjs:555-589 | A migration runs only while its unit is down |
| `PlanReadiness.MigratedUnitsStart` | scripts/plan.mjs:331-342 | The unit of every migration is started later in the same plan |
| `PlanReadiness.RetainedIsNotMigrated` | scripts/plan.mjs:288-293 | In an executable plan no retained service that comes back is migrated |
| `PlanReadiness.MigratedAtSameSchema` | scripts/plan.mjs:269-275 | In an executable plan a service that stays enabled is migrated only at an unknown or unchanged schema |
| `PlanReadiness.MigratedWhileEnabled` | scripts/plan.mjs:397-401 | Exactly when an executable plan migrates a service that stays enabled: its schema was never recorded, or its database unit is created, missing, or reverted from a manual change |
| `PlanExamples.MissingContainerMigrates` | scripts/plan.mjs:397-401 | The comment that such a migration is always blocked is refuted by a well-formed input with a missing container |
| `PlanExamples.UnknownSchemaMigrates` | scripts/plan.mjs:397-401 | And by one without any drift whose schema was never recorded |
| `PlanExamples.FirstApplyIsPossible` | scripts/plan.mjs:661-746 | The hypotheses of the convergence results hold together for a first apply on an empty host |
| `PlanImages.StepsFindImages` | ansible/roles/service/tasks/main.yml:58-79 | Every start and every migration of an executable plan finds its image on the host, if and only if the images are there of those units whose configuration alone changes while their container is gone or runs another image |
| `PlanImages.RunPulls` | scripts/plan.mjs:540-552 | The images on the host after any operations are those that were there and those that were pulled |
| `PlanExamples.PrunedImageIsMissed` | ansible/roles/service/tasks/main.yml:62-64 | The comment that the image has been pulled by an earlier operation of the same plan is refuted by an executable plan with a start that misses its image |
| `PlanIdempotence.Idempotence` | scripts/plan.mjs:490-536 | Planning again after an apply gives no operation and no drift, also where a stale unit is left, and nothing blocks it if and only if no desired volume existed under other labels |
| `PlanExamples.ForeignVolumeBlocksNextPlan` | ansible/roles/volume/tasks/main.yml:11-20 | A first apply on a host with an unlabelled volume is executable, and the plan of the same topology after it is blocked |
| `PlanIdempotence.SettledMigratesNothing` | scripts/plan.mjs:213-225 | A host that is as recorded needs no migration |
| `PlanIdempotence.SettledHasNoDrift` | scripts/plan.mjs:107-145 | A host that is as recorded shows no drift of any kind |
| `PlanRetention.DataIsConserved` | scripts/plan.mjs:306-325 | Along any history of commits a persistent service once enabled is always exactly one of enabled or retained, with the schema it had when disabled and the time of that commit |
| `PlanRetention.CommitRetains` | scripts/apply.mjs:495-501 | One commit drops the record of a service that is enabled, adds one for a service that is disabled, and keeps all others with their time |
| `PlanRetention.SwitchedMeansTouched` | scripts/plan.mjs:306-325 | A persistent service has a created or removed unit exactly when it is switched on or off |
| `PlanDispatch.ValidateBootstrapActions` | scripts/bootstrap-actions.mjs:32-45 | No error if and only if the mode is bootstrap and there is nothing to stop, remove or back up |
| `PlanDispatch.ValidateAppliedActions` | scripts/applied-actions.mjs:34-49 | No error if and only if the mode is applied and the host is not prepared again and nothing is backed up |
| `PlanDispatch.BootstrapPlanIsWhitelisted` | scripts/bootstrap-actions.mjs:16-20 | Every plan from the synthetic baseline passes the bootstrap whitelist |
| `PlanDispatch.AppliedPlanIsWhitelisted` | scripts/applied-actions.mjs:18-22 | Every plan from an applied baseline passes the applied whitelist |
| `PlanDispatch.AttachTrust` | scripts/plan-v2.mjs:98-106 | Each image.verify gets the trust the release lock has for the artifact of its unit, and no other operation gets any |
| `PlanDispatch.BuildExtraVars` | scripts/apply.mjs:135-219 | The loop ends without an internal error if and only if every dispatched action has a role and every dispatched pull has recorded trust, and gives each pull that trust |
| `PlanDispatch.PullHasTrust` | scripts/apply.mjs:164-174 | Each pull of a plan directly follows the verification of the same image and is given its trust: the signer for an own image, the digest alone for a third party's, as the lock has it for the unit |
| `PlanDispatch.PlanIsDispatchable` | scripts/apply.mjs:1797-1801 | From any resume point every action of any plan has a role and no pull lacks its trust |
| `PlanDispatch.CommitIsLast` | scripts/plan.mjs:597-600 | A plan that does anything ends with state.commit and has no other |
| `PlanDispatch.StepIdNamesAction` | scripts/plan.mjs:465-468 | The id of an operation is its running number followed by its action |
| `PlanDispatch.StepIdsAreDistinct` | scripts/plan.mjs:465-468 | No two operations of a plan share an id |
| `StepIds.IdsDiffer` | scripts/plan.mjs:465-468 | Different running numbers give different ids, whatever the names are and however many digits the numbers have |
| `StepIds.ValueOfPadded` | scripts/plan.mjs:467 | A padded number is that number, and has three digits as long as that is enough |
| `FlowOps.HasDuplicates` | scripts/backup-ids.mjs:114-122 | True if and only if two keys are equal |
| `FlowOps.EntryKeyInjective` | scripts/backup-ids.mjs:130-132 | Two consistency-set entries share a key if and only if service, unit and volume agree |
| `FlowOps.MapByIndex` | scripts/backup-flow.mjs:77-83 | For each key the last place at which the action has it |
| `FlowOps.CheckOwnOrder` | scripts/backup-flow.mjs:130-141 | With distinct keys nothing is reported exactly when each key's second operation follows its first |
| `FlowOps.RankedIsConcat` | scripts/backup-flow.mjs:95-206 | Operations whose ranks never fall are the operations of each rank, one rank after the other |
| `FlowOps.ConcatOfRanks` | scripts/backup-flow.mjs:95-206 | Parts of rising rank, joined, are ranked and each part is found again |
| `BackupFlow.AcceptedRanked` | scripts/backup-flow.mjs:165-203 | The pairwise index checks together put every operation in the order of the flow |
| `BackupShape.AcceptedIsFlow` | scripts/backup-flow.mjs:95-206 | Operations that pass all checks are a backup flow |
| `BackupShape.FlowIsAccepted` | scripts/backup-flow.mjs:95-206 | Every backup flow passes all checks |
| `BackupShape.ValidateBackupPlanOperations` | scripts/backup-flow.mjs:95-206 | No violation if and only if the plan is not executable or its operations are one backup flow; equally, if and only if place by place all that the source asks for holds |
| `BackupShape.LawfulExactly` | scripts/backup-flow.mjs:102-206 | The checks pass exactly if every destination has one snapshot and later one retention, the stopped units are the started ones, ids and entries differ, the single operations are single, and the order holds |
| `FlowExamples.BackupIsAccepted` | scripts/backup-flow.mjs:95-206 | There is a backup plan that is accepted |
| `BackupShape.SnapshotsRunInMaintenance` | scripts/backup-flow.mjs:165-203 | While a snapshot is taken maintenance is on and every unit the plan stops or starts is down |
| `BackupShape.BackupLeavesServing` | scripts/backup-flow.mjs:143-203 | Afterwards maintenance is off and no stopped unit is left down |
| `RestoreFlow.AcceptedRanked` | scripts/backup-flow.mjs:271-337 | The pairwise index checks together put every operation in the order of the flow |
| `RestoreShape.AcceptedIsFlow` | scripts/backup-flow.mjs:214-340 | Operations that pass all checks are a restore flow |
| `RestoreShape.FlowIsAccepted` | scripts/backup-flow.mjs:214-340 | Every restore flow passes all checks |
| `RestoreShape.ValidateRestorePlanOperations` | scripts/backup-flow.mjs:214-340 | No violation if and only if the plan is not executable or its operations are one restore flow; equally, if and only if place by place all that the source asks for holds |
| `RestoreShape.LawfulExactly` | scripts/backup-flow.mjs:221-340 | The checks pass exactly if every network is created once, every volume is created once and later restored once, the ten single operations are single, ids, entries and networks differ, and the order holds |
| `RestoreShape.VerifiedAtCheckpoint` | scripts/backup-flow.mjs:303-315 | The checkpoint stands behind the one manifest.verify and the one database.integrity-check, each behind every data.restore |
| `RestoreShape.ProvisionedBeforeStart` | scripts/backup-flow.mjs:319-337 | Every start stands behind the one config.restore, the one secret.materialize and the one state.restore, each behind the checkpoint |
| `FlowExamples.RestoreIsAccepted` | scripts/backup-flow.mjs:214-340 | There is a restore plan that is accepted |
| `RestoreShape.NoDataWriteAfterCheckpoint` | scripts/backup-flow.mjs:313-319 | No network, volume or data write stands behind the checkpoint |
| `RestoreShape.AllDataRestoredAtCheckpoint` | scripts/backup-flow.mjs:247-269 | At the checkpoint every volume of the consistency set has been created and then restored |
| `RestoreShape.DataRestoredLate` | scripts/backup-flow.mjs:288-310 | Data is restored only after the target was found clean, the snapshot verified and every network created |
| `RestoreShape.DataRestoredOnce` | scripts/backup-flow.mjs:249-251 | No volume is restored twice |
| `RestoreShape.VolumesDistinct` | scripts/backup-flow.mjs:247-257 | The volumes of an accepted consistency set are pairwise distinct, although only whole entries are compared |
| `RestoreShape.ValidateRestoreCommittedGeneration` | scripts/backup-flow.mjs:727-754 | No violation exactly when the journal records the source generation if the first state.restore of the plan has succeeded, and nothing otherwise, also for a plan without any |

## Left out

- A dispatch of state.commit by an old client that goes on after a later operation has taken the lock: the code says
  that an operation already dispatched cannot be recalled, so each dispatch belongs to its own operation. Without this
  assumption current.json could move back.
- StepHistory.DecideStepResumption: the sort of the attempt numbers is not modelled, because a list in which they are
  not in ascending order has been refused by then.
- acquireLockAndJournal is one step of `ApplyProtocol`; its two creations are separate steps of `JournalWriters`.
- Transport, SSH, known hosts, inventories, Docker and Ansible execution, temporary files and the mutex unit.
- Images that disappear from the host while a plan runs, and the pull that `docker compose run` makes on its own.
- Cosign, SOPS, age, TLS and hashing: digests and fingerprints are values that are compared.
- JSON schema validation: what the schemas guarantee (actions, non-empty arrays, identifiers without a slash) is a
  precondition. The v2 writers are given what the schema and bundle checks answer.
- The topology renderer and topologyToServiceState: the desired state is given, with the hypotheses above.
- An operation names its unit alone; the model keeps the service with it, since Compose keys are unique.
- The field-by-field comparisons of the backup and restore bundles, the recovery kit, credentials and preflight.
- Error texts, warnings, plan ids, timestamps and the command line.
- Iteration order of objects, maps and sets: any order is allowed. Sorted keys that are compared as JSON are compared
  as multisets.
- PlanConvergence.Convergence: is about operations that all succeed; failures are the protocol's part.
