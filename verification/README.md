# IPLAN execution engine: model and proofs

A Dafny model of the claude engine of this repository: the execution ledger with its run loop, and the relay that
carries the ledger's events out and dispatched tasks in. The command to check it is `dafny verify dfyconfig.toml`.

## What is modelled

**The execution ledger.** A manifest's tasks are scheduled in a deterministic order. Each task goes through a lease, a
saga transaction and a bounded retry, and ends in a commit or in a blocker. Everything is recorded in one mutable ledger
with an append-only, hash-chained log. Runs can be paused, aborted, resumed, overridden and landed; a gate and a handover
receipt judge the result. A chain of IPLANs repeats the scheme one level up.

**The relay.** The log is projected to keyed events, which drains deliver in order through a settled table. The receiver
accepts, claims, settles and sweeps dispatched tasks.

## How it is organised

- `RunLoop`, `Relay` and `Chains` hold each operation as a function on values. `Engine`, `Orchestrator`, `ChainRunner`,
  `Validation`, `RelayStores`, `Service`, `Topo`, `HashChain`, `Projection` and `Gates` hold the same operations in the
  form of the source, as loops and as classes updated in place, each proved to leave behind what its function says. The
  functions are what the lemmas about whole histories speak about.
- `Transcripts`, `Reports`, `ChainTraces` and `GateHistories` say what the operations, the projection, the chain and the
  gate come to, on the fields and with the literal texts and constants, without naming the functions of `RunLoop`,
  `Projection`, `Chains` and `Gates` that compute it. Small lemmas such as `GateHistories.RulesOnFields` and
  `Transcripts.LeaseFreeIff` pin single definitions the same way.
- `Steps`, `Invariants` and `Histories` carry the invariant through every turn and every operation; `Coverage`, `Visits`,
  `Safety`, `Schedules`, `FreshRuns`, `Verdicts`, `Recovery`, `Compensations`, `Attempts` and `DistinctIds` draw the
  results about histories from it. `Briefs` follows concrete histories step by step, for `Counterexamples`.
- `Outbox` and `Receiver` are transition systems in which every POST, table access and slot operation is one atomic
  step. An action that is not enabled changes nothing, so a run is any list of actions. `Outbox.DrainIsARun` and
  `Requests.RequestIsARun` show that the sequential drain and the handling of a request are such runs, and
  `Pipelines.JointIsARun` that the engine feeding its outbox is one.

## Assumptions

- **Injected callables.** The clock, the id source, the operator switch and the executor are functions of how often they
  were called before, so each result covers every deterministic or stateful environment. The clock never returns the
  empty string (`ClockOk`). Executors and log callbacks do not raise.
- **Task ids** are distinct strings; the task ledger is a map by id. Intake validation does not check distinctness.
- **Ids** are whatever the id source hands out, repeated or not. Results on `allowed` are stated with a guard on each
  override instead (`Coverage.SparesOthers`). One `IdSource` never repeats an id and so meets the guard; a new one per
  resume, as in platforms/claude/src/iplan_claude/cli/commands.py:396, need not, and
  `Counterexamples.RestartedIdsReconcileTooEarly` is a history in which it does not.
- **The hash** is any function. Where equal hashes could come from different payloads, the lemma names the positions whose
  payloads collide instead of assuming injectivity. Verification and pinning also use that a digest is non-empty and has
  no `|`.

## Where the code and its documentation differ

The model follows the code. framework/execution/RUN_MODEL.md:29 names gate rules 001 to 005, the code has a sixth
(platforms/claude/src/iplan_claude/orchestrator/loop.py:50). RUN_MODEL.md:82 leaves the transaction of a failed task
`pending`; the code marks it `compensated` when paths were touched (loop.py, lines 226 to 229) and leaves it pending
only otherwise.

Claims one might expect but that do not hold of the code are kept as they are, each with an input on which it fails or
with the exact condition under which it holds:

- `allowed` can be true with a blocked task (`Counterexamples.RestartedIdsReconcileTooEarly`); every ledger of a history
  is covered against this exactly when each override spares the other tasks (`Coverage.HistoryCoveredIff`).
- A resume runs blocked tasks again without an override and leaves the old blocker in place
  (`Visits.ResumeRunsBlockedIff` says when).
- Overriding such a stale blocker reopens a committed task for good (`Counterexamples.StaleOverrideStrands`,
  `Safety.StaleOverrideIsFinal`; `Recovery.RecoversIff` says when).
- The paths touched by an attempt that was retried are neither logged nor undone, not even when the task fails in the
  end (`Attempts.UndoneIffDecided` says which calls are undone, `Attempts.LandedPathsAreKept` which paths are logged).
- `DrainReport.ok` is true of a drain that left an event pending (`Relay.OkLeavesEvent`), so the receiver settles such a
  task as done (`Relay.OkButPendingIff` and `Service.DoneWithPendingIff` say when).

## Model

| member | source | states |
|---|---|---|
| Topo.ComputeOrder | platforms/claude/src/iplan_claude/orchestrator/topo.py:8-20 | the ordering loop, with its shrinking `remaining` and growing `done`, yields the greedy order |
| Topo.FirstOf | platforms/claude/src/iplan_claude/orchestrator/topo.py:15-16 | the choice among candidates is the least by (rank, id), found by scanning |
| Topo.OrderIsPermutation | platforms/claude/src/iplan_claude/orchestrator/topo.py:8-20 | the order lists every task id exactly once, for every graph, cyclic or not |
| Topo.OrderIsLexFirst | platforms/claude/src/iplan_claude/orchestrator/topo.py:8-20 | on an acyclic resolved graph the order is topological and lexicographically least among all topological orders |
| Topo.TopologicalIffAcyclic | platforms/claude/src/iplan_claude/orchestrator/topo.py:8-20 | the order is topological if and only if the graph is acyclic with all dependencies resolved |
| Topo.GroundedAfterDependencies | platforms/claude/src/iplan_claude/orchestrator/topo.py:8-20 | on any graph a task with a well-founded dependency closure comes after all its dependencies |
| Topo.GroundedBeforeTheRest | platforms/claude/src/iplan_claude/orchestrator/topo.py:8-20 | and before every task without one: the cycle breaker never fires while a sound task waits |
| Topo.GroundedSetIsLeastFixpoint | platforms/claude/src/iplan_claude/orchestrator/loop.py:308-313 | the set `GroundedSet(g, good)` is the least C with: t in C iff t in good and all dependencies of t in C |
| Ledgers.GraphIsOfNodes | platforms/claude/src/iplan_claude/orchestrator/topo.py:10 | the graph has exactly the ids of the nodes, and for each id exactly the dependencies its node names; of repeated ids the last node counts |
| Ledgers.NextTask | platforms/claude/src/iplan_claude/orchestrator/topo.py:14-19 | of the tasks whose named dependencies have all come, the one with the least id comes next |
| TextOrder.BeforeIff | platforms/claude/src/iplan_claude/orchestrator/topo.py:15-16 | the order of ids is that of texts: a proper prefix first, else the smaller character at the first difference |
| HashChain.VerifyChain | platforms/claude/src/iplan_claude/ledger/store.py:24-42 | the one-pass verifier answers true exactly when number, link and hash are right at every position |
| HashChain.AppendKeepsVerified | platforms/claude/src/iplan_claude/ledger/store.py:50-66 | appending to any verified log keeps it verified, with the old log as a prefix |
| HashChain.SealVerifies | platforms/claude/src/iplan_claude/ledger/store.py:50-66 | a log built by appends alone verifies |
| HashChain.LastHashPinsLog | platforms/claude/src/iplan_claude/ledger/store.py:12-42 | two verified logs with the same last hash have the same length and agree on type, subject, time and hash everywhere, unless the payloads of these logs collide at their last positions or at one common position; types and subjects free of the separator |
| HashChain.HashesAreDistinct | platforms/claude/src/iplan_claude/ledger/store.py:12-42 | two positions of one verified log share a hash exactly when their two payloads collide, whatever the subjects |
| HashChain.ReplacedRecord | platforms/claude/src/iplan_claude/ledger/store.py:24-42 | a record of a verified log can be replaced without verification noticing if and only if the new one has the right number and link, the hash of its own five fields, and the old hash unless it is the last |
| HashChain.NamesDiffer | platforms/claude/src/iplan_claude/ledger/store.py:12-21 | the engine's own event types have different names, so the hashed text tells them apart |
| Engine.RunLedger.AppendEvent | platforms/claude/src/iplan_claude/ledger/store.py:50-66 | numbers, links and hashes the event; the stored log stays the chained form of its events |
| Engine.RunLedger.OpenBlocker | platforms/claude/src/iplan_claude/orchestrator/loop.py:136-157 | blocker, reason, owner, status, history row and log event of a blocked task; the ledger becomes `Block` of the old one |
| Engine.RunLedger.StartTask | platforms/claude/src/iplan_claude/orchestrator/loop.py:180-204 | lease, open transaction, status, history row and start event |
| Engine.RunLedger.RecordEdits | platforms/claude/src/iplan_claude/orchestrator/loop.py:213-214 | one `file_edited` event per touched path in order, each with its own clock reading |
| Engine.RunLedger.RecordSuccess | platforms/claude/src/iplan_claude/orchestrator/loop.py:212-224 | edits, then evidence if any, then completion and commit |
| Engine.RunLedger.RecordFailure | platforms/claude/src/iplan_claude/orchestrator/loop.py:225-230 | undo and `compensated` only when paths were touched; otherwise the transaction stays open; then a blocker |
| Engine.ExecuteWithRetry | platforms/claude/src/iplan_claude/orchestrator/saga.py:22-40 | the retry loop returns what `Retry` says, with its calls and sleeps |
| Engine.RunLedger.RunTaskInPlace | platforms/claude/src/iplan_claude/orchestrator/loop.py:160-232 | the whole of a task execution in place equals `RunTask` on the old ledger and the old counters |
| Engine.RunLedger.BlockUnmetDeps | platforms/claude/src/iplan_claude/orchestrator/loop.py:235-259 | a task with unmet dependencies is blocked without being executed |
| Engine.RunLedger.ReconcileInPlace | platforms/claude/src/iplan_claude/orchestrator/loop.py:262-275 | counts of unfinished tasks and open blockers, `allowed`, and the control status |
| Orchestrator.VisitInPlace | platforms/claude/src/iplan_claude/orchestrator/loop.py:298-313 | one turn: skip, stop on the operator's signal, run or block; the loop's own `completed` stays the set of completed tasks |
| Orchestrator.DriveInPlace | platforms/claude/src/iplan_claude/orchestrator/loop.py:282-317 | visiting in topological order with early exit, then reconciling, equals `Drive`, and the gate result returned is that of the gate on the new ledger |
| Orchestrator.RunManifest | platforms/claude/src/iplan_claude/orchestrator/loop.py:320-347 | refuses exactly the invalid manifests; otherwise the new ledger is that of `Run`, with its gate result |
| Orchestrator.ResumeLedger | platforms/claude/src/iplan_claude/orchestrator/loop.py:350-377 | resuming in place equals `Resume`, without clearing old blockers, with the gate result of the new ledger |
| Orchestrator.ResolveInPlace | platforms/claude/src/iplan_claude/orchestrator/control.py:11-50 | an unauthorized call changes nothing; an override drops the blockers with that id and reopens the first one's task; every decision is recorded and logged |
| Orchestrator.LandInPlace | platforms/claude/src/iplan_claude/orchestrator/loop.py:55-78 | a no-op on a clean tree; otherwise commit row, commit event with the sorted edited paths, and the landing flag; in both cases the gate result of the ledger |
| Steps.RetryFacts | platforms/claude/src/iplan_claude/orchestrator/saga.py:22-40 | at most 1 + max(0, max_retries) calls, all for this task, with the executor's own answers; every call but the last is a retriable failure, and the last one is such only if all retries are used |
| Steps.RetrySleeps | platforms/claude/src/iplan_claude/orchestrator/saga.py:11-40 | n attempts sleep exactly base * (2^(n-1) - 1) in all |
| Steps.RetryDoubles | platforms/claude/src/iplan_claude/orchestrator/saga.py:11-40 | the first pause is the base, and each further one is twice the one before |
| RunLoop.FindBlocker | platforms/claude/src/iplan_claude/orchestrator/control.py:24-25 | the first open blocker with the id |
| RunLoop.WithoutKeepsOrder | platforms/claude/src/iplan_claude/orchestrator/control.py:31-32 | the filter of an override keeps every blocker with another id once, in place and order, and no other |
| Transcripts.TaskSucceeds | platforms/claude/src/iplan_claude/orchestrator/loop.py:173-232 | the net effect of a successful execution on every field of the ledger and every counter: literal key, texts and statuses, and which clock reading and which id each entry takes |
| Transcripts.TaskFails | platforms/claude/src/iplan_claude/orchestrator/loop.py:173-232 | the same for a failed one: undo and `compensated` only when paths were touched, the executor's reason or `execution failed`, a blocker owned by the operator |
| Transcripts.TaskIsUnmet | platforms/claude/src/iplan_claude/orchestrator/loop.py:235-259 | a task with an unmet dependency gets a blocker, one history row and one event, and no lease, transaction or call |
| Transcripts.LeaseExcludes | platforms/claude/src/iplan_claude/orchestrator/leases.py:8-18 | while a task runs its lease cannot be had a second time |
| Transcripts.RunStarts | platforms/claude/src/iplan_claude/orchestrator/loop.py:81-122 | a run starts with the manifest's source and scope, one pending entry per node id, and nothing else |
| Transcripts.DriveEnds | platforms/claude/src/iplan_claude/orchestrator/loop.py:262-317 | the run state says whether the operator paused or aborted at the last poll, or the order was gone through; both counts, the flag and the status are those of the ledger as it then stands |
| Transcripts.DecisionWrites | platforms/claude/src/iplan_claude/orchestrator/control.py:16-50 | every authorized decision leaves a resolution row and a log event; only `override` of an open blocker does more: it drops all blockers with the id and puts the first one's task back to pending |
| Safety.StartedAfterDependencies | platforms/claude/src/iplan_claude/orchestrator/loop.py:298-313 | every `task_started` event is about a node of the manifest and is preceded by a `task_completed` event of each dependency that node names, whatever overrides did in between |
| Safety.SuccessAtMostOnce | platforms/claude/src/iplan_claude/orchestrator/loop.py:173-224 | no executor call after a success for the task, at most one committed transaction and one completion event per task, and the three agree |
| Safety.AllowedMeansDone | platforms/claude/src/iplan_claude/orchestrator/loop.py:262-275 | in every reachable ledger `allowed` means that no task is pending and no blocker open; it is right about all tasks being completed exactly when every blocked task is covered by a blocker, and so whenever each override spared the other tasks |
| Coverage.OverrideKeepsCoveredIff | platforms/claude/src/iplan_claude/orchestrator/control.py:31-36 | an override leaves every blocked task covered if and only if each blocked task it does not reopen keeps a blocker of another id: the guard, readable before the call |
| Coverage.DriveIsExact | platforms/claude/src/iplan_claude/orchestrator/loop.py:262-317 | a run or resume of a covered ledger leaves it covered, and `allowed` if and only if all tasks are completed and no blocker is open |
| Coverage.HistoryCoveredIff | platforms/claude/src/iplan_claude/orchestrator/control.py:24-36 | over any history every ledger is covered if and only if every override spares the others |
| DistinctIds.UniqueIdsSpare | platforms/claude/src/iplan_claude/executor/base.py:33-41 | ids that never repeat are one way to meet that guard |
| Counterexamples.RestartedIdsReconcileTooEarly | platforms/claude/src/iplan_claude/orchestrator/control.py:31-36 | with a new id source for each resume an override can take the last blocker of another task: `allowed` becomes true with a blocked task, a further resume takes it back, and the guard fails at that very override |
| Counterexamples.SegmentsAreSources | platforms/claude/src/iplan_claude/cli/commands.py:396 | in that history each resume draws its ids from an `IdSource` of its own |
| IdSources.OneSourceIsUnique | platforms/claude/src/iplan_claude/executor/base.py:33-41 | ids from a single `IdSource` never repeat |
| IdSources.IdSource.Next | platforms/claude/src/iplan_claude/executor/base.py:33-41 | the id is the prefix and the number of times that prefix was asked for |
| IdSources.IdCounts | platforms/claude/src/iplan_claude/executor/base.py:33-41 | the k-th id is its prefix and the decimal number of requests for that prefix so far |
| Safety.AllowedIsStable | platforms/claude/src/iplan_claude/orchestrator/loop.py:350-377 | after a history whose overrides spared the others, `allowed` once true stays true under any further resume, resolution and landing, with no condition on those |
| Safety.BlockerLeavesByOverride | platforms/claude/src/iplan_claude/orchestrator/control.py:24-50 | a blocker leaves only in an authorized override of its id, which adds the resolution row and the log event |
| Safety.BlockersLeaveOnlyByOverride | platforms/claude/src/iplan_claude/orchestrator/control.py:24-50 | the same over any sequence of operations |
| Safety.StaleOverrideIsFinal | platforms/claude/src/iplan_claude/orchestrator/control.py:31-36 | and no later operation completes that task, because every retry is a no-op; while overrides spare the others the ledger is never reconciled again |
| Counterexamples.StaleOverrideStrands | platforms/claude/src/iplan_claude/orchestrator/control.py:31-36 | a stuck task is reached by a failure, a resume that succeeds and an override of the blocker left open |
| Safety.LeaseAlwaysFree | platforms/claude/src/iplan_claude/orchestrator/loop.py:176-189 | between operations no lease is held and every lease can be had |
| Visits.NoLeaseConflict | platforms/claude/src/iplan_claude/orchestrator/loop.py:176-179 | at every visit of every run and resume of a history all leases are released and the task's own can be had: the conflict branch is unreachable |
| Visits.LoopPassesVisit | platforms/claude/src/iplan_claude/orchestrator/loop.py:298-313 | the visits are those of the loop: from each one that is reached the loop goes on with the rest of the order |
| Visits.VisitCallsIff | platforms/claude/src/iplan_claude/orchestrator/loop.py:298-313 | a visit calls the executor exactly when the task is not completed, the operator lets the loop go on, its dependencies are completed and it was never committed |
| Visits.ResumeRunsBlockedIff | platforms/claude/src/iplan_claude/orchestrator/loop.py:350-377 | a resume runs a blocked task again without an override exactly when its visit is reached and not stopped, its dependencies are completed by then and it was never committed; the old blockers stay open |
| Safety.OneLeaseWhileRunning | platforms/claude/src/iplan_claude/orchestrator/loop.py:180-232 | while a task runs its own lease is the only one held, and it is released at the end |
| Attempts.UndoneIffDecided | platforms/claude/src/iplan_claude/orchestrator/saga.py:22-40 | over every history the undo calls are, in order, for exactly the failed calls that decided their execution and named paths; every other call was a retriable failure followed by a call for the same task, and what it touched is never undone |
| Attempts.HistoryAccounts | platforms/claude/src/iplan_claude/orchestrator/loop.py:206-230 | over every history the recorded attempts cut the executor's calls into executions, each of failures that were retried and the call that decided; the status of each transaction says how that call ended; edit events are the paths of the successful calls |
| Attempts.LandedPathsAreKept | platforms/claude/src/iplan_claude/orchestrator/loop.py:66-76 | a landing puts exactly the paths of the successful calls on record, ascending, in the commit row and in the commit event alike, with branch, sha, message and time; nothing else of the ledger changes but the landing flag |
| Attempts.SortedIsAscending | platforms/claude/src/iplan_claude/orchestrator/loop.py:69-71 | the sorted listing has each path of the set once, in text order |
| Compensations.UndoIsOnRecord | platforms/claude/src/iplan_claude/orchestrator/loop.py:225-230 | over every history the undo calls are, one for one and in order, the compensation events, and as many as the compensated transactions |
| FreshRuns.HistoryRowsChain | platforms/claude/src/iplan_claude/orchestrator/state.py:16-28 | in a fresh run each task's history rows lead step by step from `pending` to its current status |
| Schedules.UninterruptedRun | platforms/claude/src/iplan_claude/orchestrator/loop.py:282-347 | if each task's outcome is fixed, an uninterrupted run completes exactly the least set that holds a task if and only if the task succeeds and all dependencies its node names are in the set, cyclic or not |
| Schedules.InterruptionsDoNotMatter | platforms/claude/src/iplan_claude/orchestrator/loop.py:282-377 | and so does any interrupted history followed by one uninterrupted resume |
| Recovery.OverridesClose | platforms/claude/src/iplan_claude/orchestrator/control.py:31-36 | a series of overrides closes exactly the blockers it names |
| Recovery.RecoversIff | platforms/claude/src/iplan_claude/orchestrator/control.py:31-36 | from any reachable ledger of an acyclic manifest, overriding until no blocker is open and resuming uninterrupted with a succeeding executor completes and reconciles everything if and only if no task was stuck and no override reopened a committed task |
| Recovery.RecoversIffNoStale | platforms/claude/src/iplan_claude/orchestrator/control.py:31-36 | when open blockers carry different ids this can be read off the ledger beforehand: no open blocker names a committed task and no task is stuck; then the executor is called once per open task and for no other |
| Recovery.UniqueIdsRecoverIff | platforms/claude/src/iplan_claude/orchestrator/control.py:31-36 | and if ids never repeat, open blockers do carry different ids in every ledger of every history, so the condition applies to any of them |
| Recovery.OverrideAndResumeRecovers | platforms/claude/src/iplan_claude/orchestrator/loop.py:298-377 | after any fresh run of an acyclic manifest, once overrides closed every blocker, an uninterrupted resume with a succeeding executor completes everything and reconciles, calling the executor once per open task and for no other |
| Validation.ValidateIntake | platforms/claude/src/iplan_claude/validation/intake_rules.py:13-54 | the findings are exactly the rules that fire, and none exactly on a valid manifest |
| Validation.ValidateLedger | platforms/claude/src/iplan_claude/validation/ledger_rules.py:16-137 | the rules found are exactly those that fire on the ledger and the stored, possibly tampered log |
| Validation.ScanLeases | platforms/claude/src/iplan_claude/validation/ledger_rules.py:77-91 | grouping unreleased leases by task and comparing within groups finds exactly the overlapping pairs |
| Validation.PathInScope | platforms/claude/src/iplan_claude/ledger/isolation.py:8-9 | a path is in scope exactly when some root is a string prefix of it |
| Gates.RunGate | platforms/claude/src/iplan_claude/gates/runner.py:14-33 | passed exactly when no referenced rule fired; one result per gate rule with the fired rules it references |
| GateHistories.DefaultGatePasses | platforms/claude/src/iplan_claude/orchestrator/loop.py:33-52 | the default gate passes if and only if none of its eight rules fires |
| GateHistories.RulesOverHistories | platforms/claude/src/iplan_claude/validation/ledger_rules.py:16-137 | on a ledger of any history of a valid manifest only missing evidence, a weak acceptance and a path outside the roots can fire |
| GateHistories.GateIffAccountable | platforms/claude/src/iplan_claude/orchestrator/loop.py:33-52 | the default gate passes a ledger of any history if and only if every completed task's success carried evidence and every path named by a success or given to an undo starts with an allowed root |
| GateHistories.HandoverIffAccountable | platforms/claude/src/iplan_claude/handover/receipt.py:20-26 | so the receipt on any ledger of any history says completed if and only if the ledger is reconciled and that holds |
| Orchestrator.EvaluateGate | platforms/claude/src/iplan_claude/gates/runner.py:14-33 | the result is that of the given gate, or of the default one, on the ledger: the verdict, and per gate rule exactly the violations of the rules it references |
| Orchestrator.Handover | platforms/claude/src/iplan_claude/handover/receipt.py:23-26 | the handover is completed exactly when the gate passes, the ledger reconciled and no task is open |
| Verdicts.HandoverIffDelivered | platforms/claude/src/iplan_claude/handover/receipt.py:20-26 | end to end: a fresh run of a valid manifest hands over as completed if and only if every task's accepted result was a success with evidence whose paths all start with an allowed root |
| Projection.ToExecutionEvents | platforms/claude/src/iplan_claude/ledger/events.py:84-126 | the loop yields the fan-out of the records in log order |
| Reports.HistoryIsTold | platforms/claude/src/iplan_claude/ledger/events.py:84-126 | over every history the outbound events are the reported records of the log in order, a completion twice, each with the literal type and status of its kind, the record's time and paths, its key and ids, identity and signature; undo and resolution records are skipped |
| Reports.CompletionVerdict | platforms/claude/src/iplan_claude/ledger/events.py:112-117 | a completed task is reported as test.passed if and only if its one successful call carried evidence |
| Projection.ProjectionIsStable | platforms/claude/src/iplan_claude/ledger/events.py:84-126 | after any further operations the old outbound events, test verdicts included, are a prefix of the new ones |
| Projection.KeysAreDistinct | platforms/claude/src/iplan_claude/ledger/events.py:18-30 | the idempotency keys of a verified log are pairwise distinct if and only if no two records of one reported kind hash different payloads to the same value |
| ChainRunner.RunChainInPlace | platforms/claude/src/iplan_claude/orchestrator/chain.py:60-92 | the chain loop with early exit equals `RunChain`, and the chain ledger assembled from it holds each node's flag, the order and the verdict |
| Chains.ChainIsOfNodes | platforms/claude/src/iplan_claude/orchestrator/chain.py:24-25 | the chain's graph and ranks are those its nodes name |
| Chains.NextIplan | platforms/claude/src/iplan_claude/orchestrator/chain.py:26-34 | of the IPLANs whose named dependencies have all come, the one with the least (order, id) comes next |
| ChainTraces.ChainIsExact | platforms/claude/src/iplan_claude/orchestrator/chain.py:60-92 | a chain takes its turns in order until the operator stops it; at each turn the IPLAN is run, without retries and from the clock and ids the turn before left, if and only if all it depends on comes earlier and reconciled; nothing else has a ledger or a flag, and only a missing or invalid manifest raises |
| Chains.SubLedgerNeedsUpstreams | platforms/claude/src/iplan_claude/orchestrator/chain.py:79-91 | a sub-ledger exists only for an IPLAN whose named upstreams all come earlier in the order and reconciled |
| Chains.AllowedChainIsSound | platforms/claude/src/iplan_claude/orchestrator/chain.py:23-57 | a reconciled chain is acyclic and resolved, its order puts each IPLAN behind all its node depends on, and each IPLAN ran to the end |
| Chains.FreshAllowedMeansDone | platforms/claude/src/iplan_claude/orchestrator/chain.py:82-91 | in a fresh run `allowed` means all tasks completed and no blocker open, without any hypothesis on ids |
| Relay.Classify | platforms/claude/src/iplan_claude/relay/reject.py:45-75 | delivered exactly on a 202; given up exactly on a stale skew reject or a 403 that names neither an integrity nor a skew code; halted exactly on an integrity code or an unforeseen reject below 500; a server error is retried whatever its body says |
| Relay.ClassifyOnFields | platforms/claude/src/iplan_claude/relay/reject.py:45-75 | the whole table on the status and the three body fields: the first non-blank of `reason`, `reject_code`, `code` decides, an integrity code halts, a skew retries or is given up by age, a 403 without either is given up, anything else halts |
| Relay.TriesLastDecides | platforms/claude/src/iplan_claude/relay/client.py:67-88 | every POST but the last failed to connect or met a server error; such an ending means all retries were used |
| Relay.DrainPostsBounded | platforms/claude/src/iplan_claude/relay/worker.py:36-83 | draining n events makes at most 2 * (max_retries + 1) * n POSTs |
| Relay.DrainIsExact | platforms/claude/src/iplan_claude/relay/worker.py:36-73 | a drain alone adds rows for exactly the keys it reports, and ends with a row for every event or one pending key, the first event without a row |
| Relay.AcceptingDrainsAll | platforms/claude/src/iplan_claude/relay/worker.py:36-73 | whatever was left undone, a drain against an accepting endpoint settles every event |
| Relay.OkLeavesEvent | platforms/claude/src/iplan_claude/relay/worker.py:24-33 | `ok` is true of a drain that delivered nothing: one event, an endpoint that answers 500, no retry |
| Relay.SettledIffNothingPending | platforms/claude/src/iplan_claude/relay/worker.py:36-73 | a drain that reported settled every event if and only if nothing is pending |
| Relay.OkButPendingIff | platforms/claude/src/iplan_claude/relay/worker.py:60-73 | such a drain is `ok` with an event left over if and only if its last answer, for the first event without a row, was a server error or a skew that is not stale |
| RelayStores.Client.DeliverOnce | platforms/claude/src/iplan_claude/relay/client.py:67-92 | the retry loop returns the final response or raises, after the doubling pauses |
| RelayStores.PausesDouble | platforms/claude/src/iplan_claude/relay/client.py:90-92 | no base, no pause; else the first pause is the base and each further one twice the one before |
| RelayStores.Client.DeliverWithRefresh | platforms/claude/src/iplan_claude/relay/worker.py:76-83 | a 401 earns one more delivery, a second 401 halts; each delivery pauses on its own |
| RelayStores.DrainInPlace | platforms/claude/src/iplan_claude/relay/worker.py:36-73 | the drain loop writes the rows, sends the POSTs and returns the report of `Drain`; other ledgers' rows are untouched, and every row it wrote is stamped with a clock reading of the drain |
| RelayStores.RelayStore.MarkSettled | platforms/claude/src/iplan_claude/relay/store.py:110-119 | adds a delivered row, stamped now, unless the key has one |
| RelayStores.RelayStore.DeadLetter | platforms/claude/src/iplan_claude/relay/store.py:126-139 | replaces the row of the key by the dead letter with its event, stamped now |
| RelayStores.RelayStore.LoadSettled | platforms/claude/src/iplan_claude/relay/store.py:101-107 | exactly the keys with a row for this ledger |
| RelayStores.RelayStore.PruneSettled | platforms/claude/src/iplan_claude/relay/store.py:256-281 | exactly the delivered rows and terminal tasks older than the retention window before now go; dead letters and unfinished tasks stay |
| RelayStores.SweepIsPrune | platforms/claude/src/iplan_claude/relay/store.py:256-281 | for each ledger the sweep removes delivered rows only |
| Outbox.DrainIsARun | platforms/claude/src/iplan_claude/relay/worker.py:36-83 | the sequential drain, called at any moment, is a run of a single drainer in the concurrent system |
| Outbox.SettledIsPrefix | platforms/claude/src/iplan_claude/relay/worker.py:48-73 | under every interleaving of drains, growth, crashes and sweeps the keys ever settled are those of a prefix of the events; without sweeps the table holds exactly that prefix |
| Outbox.PostedInOrder | platforms/claude/src/iplan_claude/relay/worker.py:48-73 | no event is posted before every earlier one has been settled |
| Outbox.StoppedAtFirstUnsettled | platforms/claude/src/iplan_claude/relay/worker.py:60-73 | a drain that stops early has one pending key, everything before it is settled, and it is the first unsettled event unless another drain settled it since |
| Pipelines.HistoryGrows | platforms/claude/src/iplan_claude/ledger/events.py:84-126 | further operations on the ledger append news to its events, and the growth step with these news is enabled if and only if the later log has no confused records |
| Pipelines.JointIsARun | platforms/claude/src/iplan_claude/relay/worker.py:36-56 | as long as no records are confused, any interleaving of ledger operations with the steps of drains, crashes and sweeps is a run of the outbox, at every moment with exactly the events projected from the ledger as it stands |
| Pipelines.SettledOfLedger | platforms/claude/src/iplan_claude/relay/worker.py:48-73 | so at every moment of such an interleaving the keys ever settled are those of a prefix of the events of the ledger as it stands |
| Outbox.SettledIsJustified | platforms/claude/src/iplan_claude/relay/worker.py:58-66 | every settled key met a 202, or a condemning reply and then sits among the dead letters with its event |
| Outbox.DeadLettersArePermanent | platforms/claude/src/iplan_claude/relay/store.py:110-139 | a dead letter stays, with its event, through later drains, concurrent settles and sweeps |
| RelayStores.RelayStore.AcceptTask | platforms/claude/src/iplan_claude/relay/store.py:202-224 | the states change as `AcceptedIn`, existing rows stay as they are, and a new row is stamped now, and the answer is accept exactly when the row can then be claimed |
| RelayStores.RelayStore.ClaimTask | platforms/claude/src/iplan_claude/relay/store.py:227-240 | won exactly when the row was `accepted`; the states change as `ClaimedIn`, the function the concurrent system steps with; a won row is stamped now |
| RelayStores.RelayStore.SettleTask | platforms/claude/src/iplan_claude/relay/store.py:243-253 | the row of the task becomes done or failed, stamped now; no other row changes |
| Service.Server.Post | platforms/claude/src/iplan_claude/receiver/http.py:110-127 | replays end as duplicates, a full pool answers busy and leaves the row accepted, otherwise a slot is taken |
| Service.Server.RunAndDrain | platforms/claude/src/iplan_claude/receiver/service.py:96-120 | runs the manifest and drains the events its ledger projects; nothing is run or sent when no manifest was made or the engine refused it; for a done row every event is settled if and only if nothing is pending |
| Service.Server.Execute | platforms/claude/src/iplan_claude/receiver/service.py:86-140 | a lost claim touches nothing; a won one runs, drains, settles and sweeps, and leaves a row stamped with the settle time, done exactly when the drain reported without halting and else failed, unless the cutoff of the sweep comes after that time |
| Service.SettledIsDuplicate | platforms/claude/src/iplan_claude/relay/store.py:202-224 | a request for a settled task whose row was not swept is answered as a duplicate: the task does not run twice |
| Service.LedgerIdNamesIplan | platforms/claude/src/iplan_claude/orchestrator/loop.py:91 | ledgers share delivery rows exactly when they are of one IPLAN |
| Service.DoneWithPendingIff | platforms/claude/src/iplan_claude/receiver/service.py:112-121 | a task settles as done with an event left over exactly when the last answer of its drain, for the first event without a row, was a server error or a fresh skew |
| Service.Server.RunWorker | platforms/claude/src/iplan_claude/receiver/http.py:119-123 | executes with the same effects, and the slot comes back whatever happened |
| Requests.PostIsARun | platforms/claude/src/iplan_claude/receiver/http.py:110-127 | what `Post` leaves in the table and the slots is what a post step and, unless replayed, an acquire step of the concurrent door lead to |
| Requests.WorkIsARun | platforms/claude/src/iplan_claude/receiver/http.py:119-123 | what `RunWorker` leaves is what the launch, the claim, for a winner the settle and the sweeps, and the release lead to |
| Requests.RequestIsARun | platforms/claude/src/iplan_claude/receiver/http.py:110-127 | a request served without interruption, from any state of the door, is such a run: the job is gone, the free slots are those of before, and an accepted request wins its claim |
| Receiver.OneRunnerPerTask | platforms/claude/src/iplan_claude/relay/store.py:227-253 | in every interleaving of handlers, workers, sweeps and crashes of any number of processes, at most one worker per task is between a won claim and its settle |
| Receiver.WonOnceBetweenSweeps | platforms/claude/src/iplan_claude/relay/store.py:202-281 | two won claims of one key have a sweep of its row between them |
| Receiver.RowsOnlyMoveOn | platforms/claude/src/iplan_claude/relay/store.py:202-281 | every step moves a row only forward: accepted, running, done or failed, gone |
| Receiver.SlotsAreConserved | platforms/claude/src/iplan_claude/receiver/http.py:115-126 | in every live process free slots and slot holders add up to `max_parallel` |
| PathJail.VerdictIff | platforms/claude/src/iplan_claude/effectors/sandbox.py:10-25 | allowed if and only if the path is relative, its walk never rises above the start, and component-wise it is at or below some root and no forbidden path; each refusal has its exact condition, escape before roots before forbidden |
| PathJail.BelowIffLeadsInto | platforms/claude/src/iplan_claude/effectors/sandbox.py:16-22 | for a path that stays inside and any base, the string test on normal forms holds if and only if the base stays inside too and the path's directory lies in the base's; the start itself holds only itself |
| PathJail.FineIffInPlace | platforms/claude/src/iplan_claude/effectors/sandbox.py:10-25 | so a path is allowed if and only if it stays inside and its directory lies in that of some root and in that of no forbidden path |
| PathJail.NormalKeepsPlace | platforms/claude/src/iplan_claude/effectors/sandbox.py:13 | walking the normal form of a relative path ends where walking the path ends, from every directory |
| PathJail.AbsoluteKeepsPlace | platforms/claude/src/iplan_claude/effectors/sandbox.py:13 | and so does walking the normal form of an absolute path, from the root |
| PathJail.LeadingSlashes | platforms/claude/src/iplan_claude/effectors/sandbox.py:13 | exactly two leading slashes survive as two, any other number as one |
| PathJail.UnderIsSegmentwise | platforms/claude/src/iplan_claude/effectors/sandbox.py:18-22 | the string test with a trailing separator is the component prefix test, for any two strings |
| PathJail.EscapesIff | platforms/claude/src/iplan_claude/effectors/sandbox.py:13-15 | the test for a leading `..` fires exactly when some prefix of the walk rises above the start |
| PathJail.DotAdmitsOnlyDot | platforms/claude/src/iplan_claude/effectors/sandbox.py:16-18 | the root `.` admits the start itself and nothing below it |
| PathJail.NormalIsIdempotent | platforms/claude/src/iplan_claude/effectors/sandbox.py:13 | normalizing twice is normalizing once |
| PathJail.NormalizedFirst | platforms/claude/src/iplan_claude/effectors/sandbox.py:10-25 | the answer is the same for a path and its normal form |

## Left out

- Executor effects, git, the file system, clone and workspace collection: `land` takes "has changes" and the commit sha as inputs, `execute` the manifest that provisioning and ingest made of the payload.
- An executor's own use of `ctx.clock` and `ctx.ids` between two reads of the loop: the clock and id functions count the loop's reads only.
- The prefix passed to `ids` and the identity of the agent, titles, acceptance criteria and metadata carried through unread.
- Resuming with a manifest other than the one the ledger was made from (a `KeyError` in the code for an unknown task).
- HTTP parsing, bearer check, body limits, heartbeat, probes, CLI and configuration.
- SQLite connections, locking and WAL: a store method is one atomic step; that a claim or a settle may raise is modelled as a step of its own in `Receiver`.
- A log callback or a settle that raises after the settle was written, which would settle a second time, and a thread that fails to start, which would leak its slot.
- Timestamps without a time zone, for which the age computation raises; `Judge.age` answers None or an age.
- How a signature and a short digest are computed: both are functions of the sender, applied as the source applies them.
- YAML and JSON, SHA-256, HMAC and canonical JSON; touched paths are not part of the hashed payload, in the code as in the model.
- Dictionary typing: missing fields and values of other types; evidence is one opaque value that cannot overwrite its own keys.
- The receipt beyond its status, budget accounting, redaction, SLO and alert evaluation, audit reports, the authorization table (a boolean here) and payload validation.
- Ledger-editing helpers of the engine class (`record_transaction`, `acquire_lease`, `renew`, `record_evidence`), which let callers write arbitrary entries.
- The chain ledger's pass-through fields (tiers, cross-plan leases, gate results).
- The hermes engine, a twin of the modelled one.
