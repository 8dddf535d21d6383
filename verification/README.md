# Simulation Workbench: verified models

Dafny models of the parts of the Simulation Workbench whose correctness spans many operations, with proofs of what the
code and its documentation promise. `dafny verify dfyconfig.toml` checks everything.

**Managed local runner** (`Runner*.dfy`, `Central.dfy`, `*Invariant.dfy`, `*Steps.dfy`, `Outbox*.dfy`, `Progress.dfy`,
`SyncRuntime.dfy`). A PC-side job queue with a durable outbox. `RunnerTables` gives the effect of every storage
operation as a function on tables; the class `ManagedStorage` in `RunnerStorage` does the work statement by statement
and is proved equal to it. `RunnerSystem` puts tables, executor threads, in-flight syncs and the central server of
`managed_local_execution.py` into one transition system with crashes between any two commits and a recovery that can
itself be interrupted between rows. `RunnerTheorems` states what holds after every run of steps from a fresh
installation. `SyncRuntime` is one call of `sync` with its byte budget, backoff and disabling, against any network and
clock; `RunnerDrain` ties its rounds to the steps of the system. `RunnerHandlers` adds the create and retry handlers
with the server's approval, `RunnerProvenance` where a run's context and program come from, `RunnerSlots` the count of
RUNNING rows, `RunnerCleanup` what a project cleanup on the server does to the outbox, and `RunnerWitness` concrete
runs of the system. Every batch ever posted stays on the wire and may arrive at any later time; a repeated request
cannot start anything, and only a server that changed the ids of a context could make its answer differ
(`RunnerTheorems.RepeatIsAnswered`).

**PostgreSQL cutover** (`Cutover*.dfy`). Catalog, directories, env files and recovery marker under an arbitrary fault
pattern: any statement may fail without effect and the process may die after any statement. `Cutover` gives the
meaning of the scripts as functions, `CutoverScript` is the statement-by-statement form with the flags the handlers
look at.

**DuckDB to PostgreSQL copy** (`Copy*.dfy`, `RowDigest.dfy`). Rows are materialized, inserted with cyclic references
staged as NULL, and the references restored by id, with every foreign key, unique key and row check of the target
checked at every statement.

**Algorithms.** `SqlSplit` (top-level comma splitter), `BatchIdentity` (legacy backfill and its checks), `DuckHandle`
(re-entrant handle manager under interleaving threads), `EdgeBand` and `EdgeReduction` (Open Cell stress verdicts).

## Where the code does less than one might read into it

Where the outcome depends on the input, the exact condition is proved.

- A failed activation can end unmarked and without assets: the handler does not see that the move back inside
  `_activate_staged_assets` failed (`CutoverFaults.MixedExactly`).
- An undone swap opens databases that were closed before: it is exact for every fault pattern if and only if both were
  open (`CutoverProofs.UndoneIsExactWhenOpen`, with the pattern in `CutoverProofs.LastFaultUndone`).
- The storage alone admits two equal direct items of one request (`RunnerTheorems.DirectGuardIsNeeded`,
  `RunnerTheorems.DirectItemsExactly`).
- The process slots do not bound RUNNING rows: with one slot there can be a hundred
  (`RunnerWitness.SlotsDoNotBoundRows`); how many there are in each state, and when they fit the slots, is
  `RunnerSlots.RunningRowsCount`.
- A DuckDB file that passes every audit can fail to copy, because the target has unique keys the file need not satisfy
  (`CopyTheorems.DoubleInvitationCollides`, `CopyTheorems.CollidingRowsFail`; when exactly,
  `CopyTheorems.CopySucceedsExactly`).
- The band of an element is that of the last listed row of its id (`EdgeReduction.LaterRowDecides`,
  `EdgeReduction.BandIsOwnExactly`).
- Concurrent sync calls can raise the byte budget again (`SyncRuntime.StaleReadRaises`). It takes a thread switch
  inside the one statement that reads and writes `sync_max_bytes` (local_runner/server.py line 407) while the other
  call makes two posts; a write raises the budget exactly under the condition of `SyncRuntime.RaisesExactly`, and what
  has been read cannot raise it exactly under that of `SyncRuntime.CannotRaiseExactly`.
- A project cleanup on the server can strand the outbox of a PC: it looks only at runs the server has stored, and one
  pending event under a deleted grant has the server refuse its batch and the runner disable syncing for the whole
  binding (`RunnerWitness.CleanupStrands`, `RunnerCleanup.FrozenForever`). A batch is refused exactly when it holds
  such an event (`RunnerTheorems.RefusedExactly`), and while syncing is not disabled the outbox can still be emptied
  exactly when no such event is pending without an answer for it being held (`RunnerCleanup.DrainableExactly`).
- A swap whose except block fails too can leave no database under the target name (`CutoverFaults.TargetLostExactly`).
- The legacy bootstrap can accept tables it refuses at the next start (`BatchIdentity.SecondStart`).

## Assumptions

- Each storage method is one atomic step. `create_runs` and `retry_run` take the write lock first; for
  `transition_run` and `complete_direct_run`, which read before their implicit transaction, atomicity is a hypothesis.
- SHA-256 is injective, so a fingerprint is modelled by what it hashes. Ids may clash: a taken primary key is an error
  that changes nothing.
- The encoded size of a payload is an envelope plus the sizes of its events plus separators.
- The executor's storage calls raise neither ValueError nor OSError after they have stored a result; any other
  exception, at any point, is the step in which the thread dies.
- Grant ids are never issued twice. The disabled flag is set in memory and on disk in one step.
- Clock, network answers, grants, new ids, exit codes and fault patterns are parameters of the steps.
- DuckDB returns the rows of a table in the same order to every SELECT of one transaction.

## Model

| member | source | states |
|---|---|---|
| `RunnerTheorems.LifeCycle` | local_runner/managed.py:195-283 | In every reachable state each run has a grant and one to four events numbered 1..n without gaps, all under that grant and with the run's fixed identity; the first is QUEUED, consecutive ones follow the documented life cycle of the run's mode, and while the runner is up the last one equals the row. |
| `RunnerTheorems.NothingIsLost` | local_runner/storage.py:305-344 | Between any two moments of any run of the system, through crashes, restarts and project cleanups, rows only move forward, identities never change, and no event, sent flag or idempotency record disappears; the server's receipts of a run only grow, up to the cleanup that deletes its grant, after which none of them and no stored run is left. |
| `RunnerTheorems.RecoverySettles` | local_runner/managed.py:211-228 | Whatever state a crash left, a restart ends with every run's last event equal to its row and no run QUEUED or RUNNING; a second restart, visiting the rows in any other order, changes nothing. |
| `RunnerTheorems.RecoverySteps` | local_runner/managed.py:218-228 | Row-by-row recovery, interruptible between any two rows, has after n rows computed the reconciliation of the first n rows. |
| `RunnerTheorems.OrderedDelivery` | local_runner/server.py:374-399 | For each run the server's receipts are a gap-free front part of its events in order; every event marked sent was received, marked events are a front part, and the server's stored run is the last event received: with handler and background syncs interleaving, answers lost, batches arriving late, twice or after the crash of the sender, and servers that take only a front part of a batch. Of a run whose grant a cleanup deleted nothing is on record. |
| `RunnerTheorems.RefusedExactly` | backend/app/services/managed_local_execution.py:295-354 | Every batch ever posted, and every front part of one, is accepted in every later state, whether or not the thread or process that sent it still exists, if and only if none of its events is under a deleted grant; otherwise it is refused because of the grant, so no 409 can happen. |
| `RunnerTheorems.DrainedMeansEqual` | local_runner/managed.py:285-308 | When the runner is up and nothing is pending, the server knows exactly those of the runner's runs whose grant it has not deleted, each with the same contents and grant. |
| `RunnerTheorems.Admission` | local_runner/storage.py:188-204 | In every reachable state at most 100 runs are QUEUED or RUNNING, and no two DIRECT runs in QUEUED, RUNNING or AWAITING_COMPLETION share a program id and an input path. |
| `RunnerTheorems.DirectGuardIsNeeded` | local_runner/server.py:547-548 | The storage accepts one direct request with two equal items and then holds two live runs of one target, so the handler's one-item rule is what admission rests on. |
| `RunnerTheorems.DirectItemsExactly` | local_runner/storage.py:194-204 | A committed direct request of any number of items keeps live targets single if and only if its inputs differ from each other and none of them is live; the storage itself looks at the first item only. |
| `RunnerTheorems.RecordsPartitionRuns` | local_runner/storage.py:167-219 | Every run belongs to exactly one idempotency record, and that record is a retry's if and only if the run has a source run. |
| `RunnerTheorems.KeyAnswersForever` | local_runner/storage.py:135-187 | From the first use of a key on, at every later time, the same request gets the recorded runs in the recorded order and changes nothing, a different request is refused and changes nothing, and create and retry requests never answer for each other. |
| `RunnerTheorems.RepeatIsAnswered` | local_runner/server.py:559-577 | For an approval of any kind, a repeated create request is answered from the record if and only if the approval left request id and work item id alone; the next rows say that this server's approvals do. |
| `RunnerHandlers.ServerContext` | backend/app/services/managed_local_execution.py:213-231 | The approved context has the submitted request id and work item id and the account's own name as actor; anything else is no approval. |
| `RunnerHandlers.RepeatStartsNothing` | local_runner/server.py:559-577 | A create request committed under this server's approval is answered, at every later time, with the same runs in the same order, to the very request the caller sent, and no run, thread or grant comes of it. |
| `RunnerHandlers.TakenKeyIsInert` | local_runner/server.py:559-627 | Once a key is taken, every create or retry request under it, at every later time, leaves the whole system as it was and gets the recorded runs or a refusal according to whether it is the recorded request. |
| `RunnerHandlers.LateStepsAreInert` | local_runner/storage.py:175-187 | A create or retry that reaches the storage after another thread committed its key changes neither tables nor threads, in every reachable state. |
| `RunnerTheorems.OriginWork` | local_runner/storage.py:221-272 | Following source runs ends at a run that is no retry, with the same mode, program snapshot, input and working directory, and FAILED or INTERRUPTED if it was retried. |
| `RunnerTheorems.RetryChain` | local_runner/storage.py:221-272 | In every reachable state each retry chain ends at a non-retry with the same work, and a run that was retried is FAILED or INTERRUPTED and keeps its row unchanged in all later states. |
| `RunnerTheorems.Executor` | local_runner/executor.py:103-128 | At most max_processes threads hold a slot; runs of one request finish in list order; no two threads share a run; a thread's current run is QUEUED until its start is recorded and RUNNING until its end is. |
| `RunnerSlots.RunningRowsCount` | local_runner/executor.py:118-126 | In every reachable state the RUNNING rows number the live subprocesses, plus the ended ones whose result is not stored yet, plus the rows left by dead threads; live subprocesses never exceed the slots, so all RUNNING rows fit the slots exactly when the other two kinds fit beside them. |
| `RunnerWitness.SlotsDoNotBoundRows` | local_runner/executor.py:118-126 | From every fresh installation with any positive number of slots, one included, a run of steps reaches exactly n RUNNING rows, for every n up to the queue bound of 100: the slots bound subprocesses and not RUNNING rows. |
| `RunnerTheorems.OneTerminalWrite` | local_runner/executor.py:107-128 | A row's status rank never falls, and a row whose rank has not risen is unchanged, so each run gets one terminal write. |
| `RunnerWitness.SomeRunSucceeds` | local_runner/executor.py:107-128 | From every fresh installation with a slot, any program of the host and any newly approved context, nine steps take a batch run from its request to SUCCEEDED with one event per status. |
| `RunnerProvenance.ContextIsApproved` | backend/app/services/managed_local_execution.py:282-292 | In every reachable state each run is stored under a grant the server issued, deleted since or not, and carries exactly the context that grant approved; the local README promises that the central server fixes actor and work. |
| `RunnerProvenance.RunsAreOwn` | local_runner/server.py:612-613 | In every reachable state every run, retries included, executes a program of this PC, whatever happens to the program table later. |
| `OutboxInvariant.RankRises` | local_runner/managed.py:251-268 | Along the events of one run the status rank rises strictly, so no snapshot occurs twice. |
| `OutboxInvariant.FourAtMost` | local_runner/managed.py:251-283 | A run never has more than four events. |
| `OutboxInvariant.PresentIsLatest` | local_runner/managed.py:223-228 | The recovery test "this snapshot occurs in some event" holds exactly when it is the latest event. |
| `OutboxInvariant.AdvanceOutbox` | local_runner/managed.py:251-268 | A transition along the life cycle, with its event in the same commit, keeps every run's event chain ending at its row. |
| `OutboxInvariant.InsertOutbox` | local_runner/managed.py:195-209 | Creating runs with grant and first event keeps the outbox invariant for old and new runs. |
| `OutboxInvariant.InterruptOutbox` | local_runner/storage.py:76-79 | The bulk restart update leaves each interrupted row exactly one event ahead of its chain. |
| `OutboxInvariant.ReconcileOutbox` | local_runner/managed.py:220-228 | Reconciling one row brings its chain up to date and leaves all other rows as they were. |
| `HistoryInvariant.NewHistory` | local_runner/storage.py:175-219 | A committed request keeps the queue bound, the single live target, the partition by records, the retry lineages and the list order. |
| `HistoryInvariant.AdmissionExtends` | local_runner/storage.py:188-204 | The queue check and the duplicate check are exactly what keeps the two admission bounds when runs are added. |
| `HistoryInvariant.AdvanceOrders` | local_runner/executor.py:103-105 | Moving the run at a thread's position keeps every list finished in front of what has been started. |
| `OutboxOrder.UnsentAre` | local_runner/managed.py:285-290 | The pending rows are exactly the events without a sent flag. |
| `OutboxOrder.UnsentSorted` | local_runner/managed.py:285-290 | Pending rows come in order of run id and sequence. |
| `OutboxOrder.UnsentOf` | local_runner/managed.py:285-290 | The sort keeps each run's unsent events in sequence order. |
| `OutboxOrder.UnsentUnique` | local_runner/managed.py:285-290 | No event key is pending twice. |
| `OutboxOrder.KeepIsTail` | local_runner/managed.py:285-304 | When the sent flags of a run are a front part of its sequence, its unsent events are the matching tail. |
| `DeliveryInvariant.AcceptOneOk` | backend/app/services/managed_local_execution.py:307-353 | An event under a grant that was not deleted, which repeats a receipt or is the next of its run, is accepted, whatever older batch it came in. |
| `DeliveryInvariant.AcceptEachOk` | backend/app/services/managed_local_execution.py:304-369 | A batch of consecutive events per run is refused with an invalid grant when one of them is under a deleted grant, and is otherwise accepted event by event, after which all of it has been received. |
| `DeliveryInvariant.BatchAccepted` | backend/app/services/managed_local_execution.py:295-354 | The server gives any batch the runner can have read that answer, however far other syncs have got since. |
| `DeliverySteps.ReadBatch` | local_runner/server.py:375-388 | Any front part of the pending list is, run by run, the next unmarked events in sequence. |
| `DeliverySteps.MarkKeepsSent` | local_runner/managed.py:299-304 | Marking an accepted batch keeps the sent flags of each run a front part of what the server received. |
| `DeliverySteps.CleanedServer` | backend/app/services/project_cleanup.py:118-120 | Deleting grants with their runs and receipts leaves each remaining run's receipts a front part of its events, its stored run the last of them, and nothing on record under a deleted grant. |
| `DeliverySteps.CleanedRun` | backend/app/services/project_cleanup.py:443-445 | A run whose grant is not deleted keeps all its receipts. |
| `OwnerInvariant.TasksApart` | local_runner/executor.py:85-105 | Two executor threads never own the same run. |
| `OwnerInvariant.OtherTasks` | local_runner/executor.py:107-128 | A thread's transition leaves the rows of every other thread alone. |
| `SystemSteps.TaskStepOk` | local_runner/executor.py:103-128 | Every executor step, including a thread dying at any point, keeps the system invariant. |
| `RequestSteps.RequestStepOk` | local_runner/server.py:559-627 | Create, retry, complete and changes of the program table keep the system invariant. |
| `LifeSteps.SyncStepOk` | local_runner/server.py:360-413 | Entering a call, reading, posting with lost requests, lost answers, partial acceptance or a refusal that disables, going round the loop and marking keep the system invariant. |
| `LifeSteps.ArrivalOk` | backend/app/services/managed_local_execution.py:295-369 | A front part of a posted batch, arriving whenever it does, is accepted unless it holds an event under a deleted grant, and receipts, sent flags, posted batches and the rest of the invariant still fit together afterwards. |
| `LifeSteps.AnswersPosted` | backend/app/services/managed_local_execution.py:295-354 | In every state the invariant allows, the server accepts every batch the runner can have posted and has then received all of it, or answers that a grant is invalid when an event is under a deleted one. |
| `LifeSteps.LifeStepOk` | local_runner/managed.py:172-228 | Crashes at any point, late arrivals, project cleanups, restarts and every single recovery step keep the system invariant. |
| `LifeSteps.AlwaysOk` | local_runner/managed.py:165-308 | The system invariant holds after every finite run of steps. |
| `Progress.RunsLater` | local_runner/storage.py:305-344 | Every run of steps only moves rows forward and only adds events, flags and records, and receipts of runs whose grant is not deleted. |
| `RunnerStorage.InsertRows` | local_runner/storage.py:209-215 | The insert loop adds one QUEUED row per item in order and fails exactly when an id is already taken, in the table or in the request. |
| `RunnerStorage.PersistInitialRuns` | local_runner/managed.py:195-209 | The loop stores grant and first event of every new run, and fails exactly when an event key is taken. |
| `RunnerStorage.LoopsInsert` | local_runner/storage.py:167-216 | Inserting all rows first and granting them afterwards gives the table that inserting granted rows one by one gives. |
| `RunnerStorage.ManagedStorage.constructor` | local_runner/storage.py:22-26 | A new binding has empty tables. |
| `RunnerStorage.ManagedStorage.CreateRuns` | local_runner/storage.py:175-219 | The whole new tables and the reply: replay, refusal with nothing changed, or rows, grants, first events and record together. |
| `RunnerStorage.ManagedStorage.RetryRun` | local_runner/storage.py:221-272 | The whole new tables and the reply of a retry: replay, refusal with nothing changed, or one run with grant, event and record. |
| `RunnerStorage.ManagedStorage.TransitionRun` | local_runner/managed.py:251-268 | Row and event change together; an unknown run changes nothing. |
| `RunnerStorage.ManagedStorage.MarkStarted` | local_runner/storage.py:317-319 | The transition to RUNNING with its event. |
| `RunnerStorage.ManagedStorage.MarkFinished` | local_runner/storage.py:321-333 | Only executor results are recorded; any other status is refused and nothing changes. |
| `RunnerStorage.ManagedStorage.CompleteDirectRun` | local_runner/managed.py:270-283 | Completes exactly a direct run that awaits completion, with its event; otherwise nothing changes. |
| `RunnerStorage.ManagedStorage.Initialize` | local_runner/managed.py:172-183 | A restart interrupts what was active and then reconciles, as the recovery theorems describe. |
| `RunnerStorage.ManagedStorage.ReconcileSnapshots` | local_runner/managed.py:211-228 | The loop over granted rows computes the reconciliation of those rows in that order. |
| `RunnerStorage.ManagedStorage.PendingEvents` | local_runner/managed.py:285-290 | Returns only unsent events, strictly ordered by run and sequence, without a key twice, at most limit of them; an unsent event it leaves out comes after all of them, and then the limit is reached. |
| `RunnerStorage.ManagedStorage.MarkEventsSent` | local_runner/managed.py:299-304 | Sets the flags of exactly the accepted keys that exist. |
| `SyncRuntime.BindingRuntime.constructor` | local_runner/managed.py:311-321 | The runtime starts with a 921600 byte budget, no backoff and sync enabled. |
| `SyncRuntime.BindingRuntime.BuildBatch` | local_runner/server.py:382-388 | The loop takes the front part that the longest-fit lemma describes. |
| `SyncRuntime.BindingRuntime.BackOff` | local_runner/server.py:365-369 | One attempt more and a delay of the capped power of two. |
| `SyncRuntime.BindingRuntime.PostBatch` | local_runner/server.py:391-413 | One post and its answer: marking, disabling on 401 and 403, shrinking on 413 of more than one event, backing off otherwise. |
| `SyncRuntime.BindingRuntime.Sync` | local_runner/server.py:360-413 | One call against any network and clock: the new state and the number of posts are those of the round function the lemmas below are about. |
| `SyncRuntime.BatchIsLongestFit` | local_runner/server.py:382-388 | The batch is the longest non-empty front part of the pending events within the byte budget, or the first event alone. |
| `SyncRuntime.BudgetStays` | local_runner/server.py:374-407 | The budget never grows and never falls below 65536, and one call posts at most 100 times. |
| `SyncRuntime.FourShrinks` | local_runner/server.py:406-408 | Four shrinking 413 answers of one call take every budget the runtime can have to 65536. |
| `SyncRuntime.FourShrinksInCalls` | local_runner/server.py:406-408 | Four shrinking 413 answers in any number of calls made one after another, with any networks and times, take the budget to 65536, where it stays; before that it never rises. |
| `SyncRuntime.StaleReadsStayInRange` | local_runner/server.py:406-408 | When overlapping calls update the budget from values read before the other wrote, every value stays between 65536 and 921600. |
| `SyncRuntime.RaisesExactly` | local_runner/server.py:406-408 | Such an update raises the budget if and only if half the value it read and half its payload both exceed the latest value; one that read the latest value never does. |
| `SyncRuntime.CannotRaiseExactly` | local_runner/server.py:406-408 | Before the payload is known: an update from a value read cannot raise the budget, whatever is posted, if and only if half that value is no more than the latest. |
| `SyncRuntime.ChainDecides` | local_runner/server.py:406-408 | Under overlap each value is what the answers along its own chain of reads make of 921600, and a chain of four makes it 65536. |
| `SyncRuntime.OverlapShrinksOnce` | local_runner/server.py:406-408 | Four shrinking answers of overlapping calls that read the same value leave the budget at 460800. |
| `SyncRuntime.PostLowers` | local_runner/server.py:391-399 | A post of which the server accepts something lowers the number of pending events. |
| `SyncRuntime.SyncDrains` | local_runner/server.py:374-413 | With such a server a call ends with nothing pending or after 100 posts, and lowers the pending count by at least the number of posts. |
| `SyncRuntime.CallsDrain` | local_runner/server.py:374-413 | Calls made one after another to such a server with no backoff pending take a hundred events each off the pending list until it is empty, and never disable syncing. |
| `SyncRuntime.BackoffDoubles` | local_runner/server.py:365-369 | The delay doubles from 2 to 256 seconds and stays there, so the limit of 300 is never reached. |
| `SyncRuntime.CallKeepsHistory` | local_runner/server.py:400-413 | No call drops an event or clears a flag, and syncing is disabled only after a 401 or 403. |
| `RunnerDrain.RoundIsThreeSteps` | local_runner/server.py:375-404 | In every state of the system invariant, a round of the loop that gets the server's answer, accepting or refusing, leaves the tables and the disabled flag that the system steps read, post and mark of its batch leave, and goes on exactly when the batch was accepted. |
| `RunnerDrain.Drains` | local_runner/server.py:374-399 | From every reachable state in which the runner is up, syncing is not disabled and no pending event is under a deleted grant, some further steps empty the outbox without changing a run or a thread. |
| `RunnerDrain.CallsReachEqual` | local_runner/server.py:360-399 | From every such state, any calls of sync to an accepting server, one for each hundred pending events, leave the tables of a state the system reaches, with nothing pending and the server knowing exactly the runs whose grant it has not deleted, each as the runner does. |
| `RunnerCleanup.DisabledByCleanup` | local_runner/server.py:400-404 | In no reachable state a posted event has disabled syncing unless a cleanup deleted the grant of some event. |
| `RunnerCleanup.FrozenForever` | local_runner/server.py:360-362 | Once syncing is disabled and the calls in progress have ended, no event of the binding is ever marked again, whatever happens and however often the runner restarts. |
| `RunnerCleanup.StuckForever` | backend/app/services/managed_local_execution.py:282-288 | An event that is pending under a deleted grant, with no answer naming it held by a thread, stays pending in every later state. |
| `RunnerCleanup.DrainableExactly` | local_runner/server.py:374-404 | In every reachable state with the runner up and syncing not disabled, the outbox can still be emptied if and only if there is no such event. |
| `RunnerWitness.CleanupStrands` | backend/app/services/project_cleanup.py:504-511 | From every fresh installation with a slot: a run is created, a cleanup deletes its grant before its first event has arrived, which the check of stored runs does not block, and the next post disables syncing for good with that event pending and the run still QUEUED. |
| `CutoverProofs.SwapEnds` | backend/scripts/postgres_replacement.py:316-383 | Promoted: the target name holds the staging database, closed, and the old one is kept closed under the previous name; refused: nothing changed; undone: only the accept flags of databases it closed can differ; half undone: one of three catalogs, as the try block left it, with the staging database open again, or with the old one back but closed. Nothing but the catalog changes. |
| `CutoverProofs.UndoneIsExactWhenOpen` | backend/scripts/postgres_replacement.py:365-382 | With the recorded identities in place and a free previous name, every undone swap under every fault pattern leaves the exact catalog it found, if and only if the staging database and the target, if there is one, accepted connections before the call. |
| `CutoverProofs.UndoneIsExact` | backend/scripts/postgres_replacement.py:365-382 | For one fault pattern, an undone swap restored the exact catalog if and only if every database it had closed had been accepting connections. |
| `CutoverProofs.LastFaultUndone` | backend/scripts/postgres_replacement.py:360-382 | The pattern in which only the last rename of the try block fails: the swap has closed both databases and is undone, so a closed one ends open. |
| `CutoverProofs.OneFaultSwap` | backend/scripts/postgres_replacement.py:316-383 | With at most one failing statement, the swap promotes the staging database or, both databases having been open, leaves the exact catalog it found. |
| `CutoverProofs.SwapKeepsOids` | backend/scripts/postgres_replacement.py:316-383 | Whatever fails, the swap loses no database. |
| `CutoverProofs.SwapGuards` | backend/scripts/postgres_replacement.py:328-340 | The swap changes nothing unless staging and target are the databases recorded before. |
| `CutoverProofs.RollbackGuards` | backend/scripts/postgres_replacement.py:415-426 | The rollback changes nothing unless promoted and previous database are the recorded ones. |
| `CutoverProofs.FinalizeGuards` | backend/scripts/postgres_replacement.py:393-402 | The promoted database is opened only while it is the recorded one and still closed. |
| `CutoverProofs.RollbackRestores` | backend/scripts/postgres_replacement.py:405-441 | After a promotion, opened or not, a rollback that runs to its end puts the old database back under the target name, open, and keeps the promoted one. |
| `CutoverSafety.ActivateEnds` | backend/scripts/postgres_transfer.py:499-511 | Moving the assets ends with them in place, with nothing moved, or with the previous assets stranded by a failed move back. |
| `CutoverSafety.ForwardEnds` | backend/scripts/postgres_transfer.py:628-662 | Wherever the forward part stops, catalog, directories and flags are in one of the states the rollback expects, and a completed one is all new. |
| `CutoverSafety.RollBackEnds` | backend/scripts/postgres_transfer.py:663-714 | A completed rollback has restored files and database, and the assets exactly when they were not stranded. |
| `CutoverSafety.ActivationEnds` | backend/scripts/postgres_transfer.py:623-714 | Activated means all new and unmarked; rolled back means unmarked and all old unless the assets were stranded; otherwise the marker is there; no state before the last statement is unmarked. |
| `CutoverSafety.NeverMixed` | backend/scripts/postgres_transfer.py:623-714 | After every statement at which the process may die the installation is all new, all old or marked, if and only if the assets were not stranded by a rollback that then removed the marker. |
| `CutoverFaults.MixedExactly` | backend/scripts/postgres_transfer.py:499-511 | For every fault pattern: an unmarked mixed installation arises exactly when there was a database and an assets directory to replace and of the 21 statements the move of the new assets and the move back fail and no other. |
| `CutoverFaults.ForwardTicks` | backend/scripts/postgres_transfer.py:628-662 | The assets are stranded exactly when the first nine statements work and the next two fail. |
| `CutoverFaults.TargetLostExactly` | backend/scripts/postgres_replacement.py:345-382 | For every fault pattern: the swap leaves no database under the target name exactly when its first six statements work, the promoting rename fails and one of the first two undoing statements fails; the old database is then closed under the previous name. |
| `CutoverFaults.MixedInstallation` | backend/scripts/postgres_transfer.py:499-511 | A concrete prepared installation and two faults after which the import reports a completed rollback, the marker is gone and the state is neither the new nor the old one. |
| `CutoverFaults.ActivateKeepsOids` | backend/scripts/postgres_transfer.py:623-714 | Whatever fails, forward or while undoing, every database that existed still exists under some name. |
| `CutoverScript.Installation.SwapDatabases` | backend/scripts/postgres_replacement.py:316-383 | The script, with its four flags and its except block, has the effect the swap theorems are about; it touches nothing but the catalog, loses no database, changes nothing unless both recorded identities match, and returns normally exactly when the target name holds the staging database, closed. |
| `CutoverScript.Installation.TryToSwap` | backend/scripts/postgres_replacement.py:345-364 | The try block: nothing but the catalog changes, and the catalog is the one its flags describe, whichever statement stopped it. |
| `CutoverScript.Installation.UndoSwap` | backend/scripts/postgres_replacement.py:365-382 | The except block: after a try block that its flags describe, a complete one leaves only accept flags changed and an incomplete one leaves one of three catalogs. |
| `CutoverScript.Installation.FinalizePromotedDatabase` | backend/scripts/postgres_replacement.py:386-402 | Opens the target only if it is the promoted database and still closed. |
| `CutoverScript.Installation.RollbackDatabaseSwap` | backend/scripts/postgres_replacement.py:405-441 | The rollback touches nothing but the catalog, loses no database and refuses before the first ALTER when an identity has changed. |
| `CutoverScript.Installation.ActivateStagedAssets` | backend/scripts/postgres_transfer.py:499-511 | The two moves, with the move back when the second fails: the new assets in and the previous ones kept, nothing moved, or the previous ones stranded. |
| `CutoverScript.Installation.RollbackSwappedAssets` | backend/scripts/postgres_transfer.py:514-518 | Moves the new assets aside and the previous ones back: when it works, the assets are those from before the move. |
| `CutoverScript.Installation.TryToActivate` | backend/scripts/postgres_transfer.py:628-662 | The forward part with its database_swapped and assets_swapped flags: from a prepared installation it stops in a state the handler expects for those flags, and the marker is gone exactly when all of it worked. |
| `CutoverScript.Installation.RollBackActivation` | backend/scripts/postgres_transfer.py:663-714 | The handler: restores files, assets and database independently, and removes the marker only if all three worked. |
| `CutoverScript.Installation.ActivateImport` | backend/scripts/postgres_transfer.py:623-714 | The whole activation; from a prepared installation and without stranded assets every state it passes through and ends in is all new, all old or marked. |
| `CopyProofs.MaterializedColumns` | backend/scripts/migrate_duckdb_to_postgres.py:262-308 | A materialized row has exactly the columns the copy inserts and the checksums compare. |
| `CopyProofs.MaterializeTwice` | backend/scripts/migrate_duckdb_to_postgres.py:262-283 | Materializing a canonical row changes nothing, so a file that is already canonical copies as it is. |
| `CopyProofs.StepMeaning` | backend/scripts/migrate_duckdb_to_postgres.py:265-272 | Of an old request step only a blocked reason true or false is reinterpreted, as the optional flag unless one is there; every other column keeps its value. |
| `CopyProofs.StagedIsOk` | backend/scripts/migrate_duckdb_to_postgres.py:92-98 | The five staged references are distinct, are not ids, and are left alone by normalization and defaults. |
| `CopyProofs.CopyAllIs` | backend/scripts/migrate_duckdb_to_postgres.py:725-766 | After the insert phase every listed table holds its materialized rows with exactly the staged columns NULL. |
| `CopyProofs.RestoreRowIs` | backend/scripts/migrate_duckdb_to_postgres.py:712-716 | When the UPDATE by id reports one row, that row is the one whose reference is being restored, even if ids repeat. |
| `CopyProofs.RestoreAllIs` | backend/scripts/migrate_duckdb_to_postgres.py:689-722 | After the restore phase every listed table holds exactly its materialized source rows. |
| `CopyProofs.CopyIsExact` | backend/scripts/migrate_duckdb_to_postgres.py:725-767 | A successful copy into empty tables leaves exactly the materialized source rows in order, and no other table changed, whatever the source references are. |
| `CopySound.InsertKeeps` | backend/scripts/migrate_duckdb_to_postgres.py:743-764 | No insert leaves a dangling reference anywhere in the target. |
| `CopySound.RestoreOneKeeps` | backend/scripts/migrate_duckdb_to_postgres.py:712-716 | No restoring update leaves a dangling reference, neither in the row nor in rows that refer to its table. |
| `CopySound.CopyAllKeeps` | backend/scripts/migrate_duckdb_to_postgres.py:734-764 | Every foreign key, unique key and row check of the target holds after every prefix of the insert phase. |
| `CopySound.RestoreAllKeeps` | backend/scripts/migrate_duckdb_to_postgres.py:689-722 | Every foreign key, unique key and row check of the target holds after every prefix of the restore phase. |
| `CopySound.AllIdentified` | backend/scripts/migrate_duckdb_to_postgres.py:712-716 | A restore that succeeds shows that each staged reference sat in a row whose id is not NULL and not repeated. |
| `CopySound.AllFit` | backend/scripts/migrate_duckdb_to_postgres.py:689-722 | A restore that succeeds shows that the rows were acceptable and collided in no unique key after each of its updates. |
| `CopyTheorems.CopySucceedsExactly` | backend/scripts/migrate_duckdb_to_postgres.py:689-767 | For any foreign keys, unique keys (columns and row filter), row checks and table order in which unstaged references point backwards, the copy succeeds if and only if the target tables exist and are empty, the materialized source satisfies every foreign key, each staged reference sits in a row its id identifies, and the rows, as inserted and while one column after the other is put back, are acceptable and collide in no unique key. |
| `CopyTheorems.CopySucceedsLenient` | backend/scripts/migrate_duckdb_to_postgres.py:689-767 | When clearing staged columns never makes a row unacceptable nor brings it under a unique key, the copy succeeds if and only if the target exists and is empty, the materialized source satisfies all constraints of the target, and each staged reference sits in a row its id identifies. |
| `CopyTheorems.CollidingRowsFail` | backend/scripts/migrate_duckdb_to_postgres.py:758-764 | Two source rows whose materialized forms agree in a unique key of the target make the whole copy fail. |
| `CopyTheorems.DoubleInvitationCollides` | backend/migrations/schema.sql:1029 | Two READY invitations of one employee to one project, which a DuckDB file may hold (backend/app/database.py lines 1786-1803), collide in the partial unique index of the target. |
| `RowDigest.DigestRows` | backend/scripts/migrate_duckdb_to_postgres.py:227-244 | Count and digest computed batch by batch are those of the whole table, for every batch size. |
| `RowDigest.DigestAdds` | backend/scripts/migrate_duckdb_to_postgres.py:227-236 | The digest of a concatenation is the sum of the digests modulo 2^256. |
| `RowDigest.DigestIsOrderFree` | backend/scripts/migrate_duckdb_to_postgres.py:227-236 | Tables with the same multiset of rows have the same count and digest. |
| `CopyRun.Transfer.CopyOne` | backend/scripts/migrate_duckdb_to_postgres.py:736-764 | Fetching and inserting in batches has the effect of inserting the transformed rows one after another, and stops where that does. |
| `CopyRun.Transfer.RestoreStaged` | backend/scripts/migrate_duckdb_to_postgres.py:699-721 | The update loop over one staged column. |
| `CopyRun.Transfer.CopyTables` | backend/scripts/migrate_duckdb_to_postgres.py:725-767 | Refuses a target that is not empty; otherwise inserts in table order and restores the staged references. |
| `CopyRun.Transfer.ExecuteCopyAndVerify` | backend/scripts/migrate_duckdb_to_postgres.py:839-859 | Commits exactly when preflight, copy and comparison pass; otherwise the committed and the working tables are what they were. |
| `CopyRun.Same` | backend/scripts/migrate_duckdb_to_postgres.py:830-831 | The comparison finds a difference exactly when some table of the source manifest differs in the target manifest. |
| `CopyRun.CommittedMatches` | backend/scripts/migrate_duckdb_to_postgres.py:851-856 | A committed target has row count and digest of every table of the manifest it was checked against. |
| `CopyRun.ExecuteCommitsExactly` | backend/scripts/migrate_duckdb_to_postgres.py:839-859 | Checked against the manifest of its own source, the run commits if and only if preflight passes and the source satisfies the conditions of the copy theorem, unique keys and row checks of the target included, and then the target holds exactly the materialized source rows. |
| `SqlSplit.SplitSqlItems` | backend/scripts/migrate_duckdb_to_postgres.py:158-185 | The scanner, which skips doubled quotes as pairs, cuts at exactly the unquoted commas outside parentheses of the simple toggling reading, on every input. |
| `SqlSplit.PiecesRejoin` | backend/scripts/migrate_duckdb_to_postgres.py:178-180 | Joining the raw pieces gives back the text, so only separating commas are removed. |
| `SqlSplit.SplitJoin` | backend/scripts/migrate_duckdb_to_postgres.py:158-185 | Splitting a comma-joined list of self-contained pieces returns the stripped pieces in order, dropping a blank last one; the last piece may leave a quote or parenthesis open. |
| `SqlSplit.RoundTrip` | backend/scripts/migrate_duckdb_to_postgres.py:158-185 | Trimmed, non-blank, self-contained items survive joining and splitting unchanged. |
| `SqlSplit.SplitIsOfPieces` | backend/scripts/migrate_duckdb_to_postgres.py:158-185 | Every text is such a list, so the law describes the splitter on all inputs. |
| `BatchIdentity.LegacyDatabase.UpdateRuns` | backend/app/database.py:1127-1137 | The update fills exactly the NULL links of runs that a succeeded attempt names, in whatever order rows are joined. |
| `BatchIdentity.LegacyDatabase.UpdateDispatches` | backend/app/database.py:1138-1148 | The update fills exactly the NULL links of dispatches whose run a succeeded attempt names. |
| `BatchIdentity.LegacyDatabase.InitializeIdentity` | backend/app/database.py:1046-1169 | Refuses with nothing changed, refuses with the backfilled rows kept, or ends with attempts, runs and dispatches linked one to one. |
| `BatchIdentity.LinksDistinct` | backend/app/database.py:1046-1116 | Tables that pass the checks have no two linked attempts sharing a run, queued or succeeded. |
| `BatchIdentity.DispatchNames` | backend/app/database.py:1138-1148 | After the backfill a dispatch names an attempt if and only if that attempt succeeded and is linked to the run of the dispatch. |
| `BatchIdentity.IdentityIsOneToOne` | backend/app/database.py:1046-1169 | After a passing start each linked run and its attempt name each other, succeeded attempts and the dispatches naming them correspond one to one, and neither unique index (lines 1219-1220) can fail, NULLs included. |
| `BatchIdentity.SecondStart` | backend/app/database.py:1055-1066 | The next start passes and changes nothing if and only if the work item of every succeeded attempt exists. |
| `BatchIdentity.MissingItemSlipsThrough` | backend/app/database.py:1149-1167 | Concrete tables that pass the first start through NULL comparisons and are refused by the second. |
| `DuckHandle.AlwaysOk` | backend/app/database_connection.py:38-87 | Under every interleaving of the steps of acquire and release by any threads, the lock's hold count is its owner's depth, plus one inside a call, every other thread has no state, and open handles beyond the held one are closes that failed. |
| `DuckHandle.OneHandle` | backend/app/database_connection.py:38-87 | From the start of a process on: at most one handle is held, none when the lock is free; at most one more handle is open than closes have failed; and only the lock's owner has connection state. |
| `DuckHandle.NeverUnderflows` | backend/app/database_connection.py:71-87 | Giving the lock back always finds its owner, and a level is only dropped where there is one. |
| `DuckHandle.AcquireEnds` | backend/app/database_connection.py:52-69 | A nested call deepens the same handle, a first call opens one, and a different path or a failed open leave lock and state as they were. |
| `DuckHandle.ReleaseEnds` | backend/app/database_connection.py:71-87 | The last release frees the lock and forgets the handle whether or not the close worked. |
| `DuckHandle.ReleasesFree` | backend/app/database_connection.py:71-87 | As many releases as levels free the lock for every other thread, however many closes fail. |
| `DuckHandle.SerializedDuckDBManager.Acquire` | backend/app/database_connection.py:52-69 | The code of acquire makes exactly the steps above; it raises exactly on another path or a failed open. |
| `DuckHandle.SerializedDuckDBManager.Release` | backend/app/database_connection.py:71-87 | The code of release makes exactly the steps above; without a connection it raises and changes nothing. |
| `EdgeBand.CentroidInside` | backend/app/radioss_csv.py:138-150 | The centroid of an accepted element lies in the bounding box of the base frame. |
| `EdgeBand.DistancesAddUp` | backend/app/radioss_csv.py:145-150 | The two distances of each pair of opposite edges add up to one, and inside the box each lies between zero and one. |
| `EdgeBand.OppositeEdges` | backend/app/radioss_csv.py:151 | No centroid counts for two opposite edges if and only if the band ratio is below one half. |
| `EdgeReduction.VerdictIsExact` | backend/app/radioss_csv.py:158-169 | Each edge's scalar is the largest principal stress over all in-band elements of all frames and the largest value of the emitted series, and the verdict is FAIL exactly when some in-band element reaches the threshold; the section method promises it for each of its reports. |
| `EdgeReduction.BaseTime` | backend/app/radioss_csv.py:118 | The base time is the earliest node time. |
| `EdgeReduction.BoundingBox` | backend/app/radioss_csv.py:131-132 | The box is the tight one around the open-cell nodes of the base frame. |
| `EdgeReduction.FirstMaximum` | backend/app/radioss_csv.py:163-168 | The first of the largest elements. |
| `EdgeReduction.GroupElements` | backend/app/radioss_csv.py:153-157 | The dictionary holds, for each edge and time, exactly the in-band elements in listing order. |
| `EdgeReduction.EdgePoints` | backend/app/radioss_csv.py:158-165 | One sample per frame with an in-band element, in ascending time, each the maximum of its frame. |
| `EdgeReduction.OpenCellSection` | backend/app/radioss_csv.py:126-170 | Absent exactly without open-cell data; accepted exactly when there are four base nodes and an element, the box has an area, all connected nodes are there and no band is empty, and then with one report per edge whose series, scalar and verdict are exact; each rejection names a reason that holds. |
| `EdgeReduction.BandIsOwnExactly` | backend/app/radioss_csv.py:136-157 | An element counts for exactly the edges its own centroid is near if and only if the last listed row of its id is near the same edges. |
| `EdgeReduction.LaterRowDecides` | backend/app/radioss_csv.py:136-157 | A concrete mesh in which an element at the lower left corner counts for the upper edge, because a later row of its id lists other nodes. |
| `EdgeReduction.BandIsOwn` | backend/app/radioss_csv.py:136-151 | When the rows of an element id agree on its nodes, an element counts for exactly the edges its own centroid is near. |
| `EdgeReduction.NoOppositeEdges` | backend/app/radioss_csv.py:126-157 | With a band ratio below one half no element of an accepted mesh counts for two opposite edges. |

## Left out

- The checks of `validate_run` and `prepare_command` in the create and retry handlers: a request they refuse changes
  nothing, and the handler functions start behind them.
- HTTP routing, CORS, header checks, sessions and pairing, native pickers, program discovery and `prepare_command`: a
  command that cannot be prepared is the step `PrepareFails`.
- `enqueue_runs`, `update_run_context` and `set_grant` of the managed storage: the server never calls them.
- Saved batches, run listings and history queries: plain reads.
- The error texts of `sync_error` and the text of `sync_disabled`, which is a flag here.
- Program name and version live in the program snapshot of a run and are not separate columns.
- The server's binding secrets, body limit and account checks: a post that fails them is a post that does not arrive.
- The server's bounds on the fields of a posted event (backend/app/schemas/managed_local_execution.py lines 81-98):
  every posted event is taken to be within them. A run whose stored `error` is longer than 2000 characters, which
  local_runner/executor.py line 128 does not prevent, has its batch refused with 422 and posted again at every
  backoff.
- RunnerCleanup.DisabledByCleanup: leaves out the two other ways to disable syncing, a new pairing of the same account
  and a revoked device secret.
- Who may clean up and what else blocks it: a cleanup deletes any set of grants under which no stored run is live,
  with the runs and receipts under them; deleted ids are those of the grants' own work items.
- Transport failures inside one SQL statement: a statement of the cutover takes effect as a whole or not at all.
- Preparation of an import before activation (backup, restore into staging, privilege hardening, asset extraction) and
  the clean-up of previous assets after it; `Prepared` states what it has established.
- Writing a private env file is one statement; its temporary file is not modelled.
- `setup_local_postgres.py`: the same cutover without assets.
- The concrete constraints of the copy target: foreign keys, unique keys and row checks (NOT NULL, CHECK) are
  arbitrary in every theorem; only the unique index on open invitations is written out.
- Connection failures in the copy: every exception takes the rollback path that `ExecuteCopyAndVerify` has for a
  failed statement. The final count comparison of each restored column always agrees and is not repeated.
- JSON encoding and `normalize`: a row digest is an arbitrary function of the row; source and target are taken to
  agree on which columns are JSON.
- `relationship_audit`, `recovery_lease_preflight` and command-line handling of the migration.
- `canonical_table_columns` beyond the splitter.
- In the batch-identity section a node version that is no number raises in the CAST; versions are numbers or NULL
  here.
- `SerializedDuckDBConnection` is the caller of acquire and release; leaving a context on another thread than the one
  that entered it is outside the model.
- CSV decoding, units, duplicate rows and the connectivity check of `parse_radioss_mesh_csv`, and its Chassis Rear
  part; floating-point rounding (stresses and coordinates are reals).
- OutboxOrder.UnsentSorted: run ids are numbers here, ordered as the text ids of the table are.
- Media, deployment bundles, backups, access policy, menus, seed data and the rest of the schema.
