# RightMemory: verified models of the crash-tolerant core

This project models the parts of RightMemory that must not go wrong when a
process dies or when several processes interleave, and proves what they keep.
`dafny verify dfyconfig.toml` checks all of it.

## What is modelled

- **The asynchronous update queue** (`UpdateQueue*.dfy`). Sessions hold pending
  jobs, a current batch, accepted uids and the next id; several sessions are
  reserved together in one durable operation and started, finished, failed or
  retried participant by participant. Every durable write is a step of its own.
  An operation is a plan: the writes it will make and whether it then raises. A
  crash leaves a prefix of the writes. `UpdateQueueStore` is the object as it
  runs, its fields changed one durable write at a time; each method is proved
  to make exactly the planned writes it still had time for.
- **The scheduler** (`Scheduler*.dfy`) with its recovery and waiting lanes and
  its deadlines, and the **wake-up counter** with the worker record and the
  leader lock (`Wakeups.dfy`).
- **The landing of isolated writes** (`Landing*.dfy`, `Paths.dfy`). Main is a
  linear history of commits with trees and message lines; an outcome is prepared
  durably, landed, recorded, and finished by whoever comes next. Operations
  interleave freely here; the counterexample runs need no more than the lock
  around whole operations allows.
- **The document index** (`Lines`, `LineGrammar`, `Fences`, `Index*`,
  `Documents`, `Loader`, `Forest`, `Manifest`, `Walk`): the line grammar on
  characters, the parser with its stack of headings and its fences, the loading
  of documents that may name each other in cycles, and the logical tree.
- **Headings, typed edges and the pursuit fence** (`HeadingEdits`, `Edges`,
  `TextLines`, `PursuitFence*`).
- **The guidance inbox** (`Ordering`, `Guidance*`): parser, printer and
  three-way merge.
- **Smaller cores**: `EmbeddingSearch`, `ClientLeases`, `ThreadCleanup`.

Sections under a lock are atomic. Times, display ids and uids are integers.
Hashes are injective: an operation id is the set of its candidates, a text
stands for its hash. What the file system, Git, the clock, the embedding
service or a caller decides is a parameter: a directory listing in any order, a
cherry-pick that keeps what its change does not touch, a commit date, the test
for a valid timestamp.

Operations are functions or methods on a state. Next to what they keep over runs
(`UpdateQueueSafety`, `UpdateQueueRuns`, `LandingProofs` and others) stands what
each of them leaves, said on the fields of records, on the lines of documents or
on characters (`UpdateQueueEffects`, `SchedulerService`, `LandingEffects`,
`IndexLines`, `LineGrammar`, `GuidanceLines`).

## Promises that do not hold

Each is kept as the code has it, with a concrete run that breaks it and the exact
condition under which it does hold.

- *Acknowledging a synchronized session keeps every candidate.* It does unless
  the pending jobs become empty while a batch is current
  (`UpdateQueueSafety.AcknowledgeSafe`). In that case the session is marked
  succeeded with its batch still in it, and the next enqueued job drops the batch
  (`UpdateQueueLimits.AcknowledgeThenEnqueueForgets`). Runs exclude this case.
- *A counted wake-up is served.* It is if and only if no worker has cleared its
  record and still holds the leader lock when it is counted
  (`Wakeups.LostOnlyInWindow`). In that window the submitter starts a replacement
  that may find the lock taken and return at once
  (`Wakeups.WakeUpCanBeLost`).
- *An operation lands at most once, and a committed one has landed.* It does in
  every run in which the ids are searchable, no private message quotes another
  operation's trailer in a line that the squash keeps, and no foreign commit
  carries a trailer; each of the three is necessary
  (`LandingLimits.DisciplineIsExact`). The squash drops lines that begin like a
  trailer, the search ignores white space around a line: an indented quotation
  makes another operation count as landed, and its result is lost
  (`LandingLimits.QuotedOperationIsLost`).
- *The merged inbox parses back.* It does if and only if every body selected from
  the two sides keeps its fences and headings to itself
  (`GuidanceResults.MergeParsesBack`). The parser strips the indentation of a
  body's first line, so a line that was no fence can become one
  (`GuidanceResults.IndentedFenceIsLost`).

A fifth is weaker than it looks: sending an interrupted submit again adds the
candidate exactly once, but the call may raise although it has done so
(`UpdateQueueSubmit.InterruptedSubmitRetry`, `UpdateQueueLimits.WorkerRetryCanRaise`).

## Model

| member | source | states |
|---|---|---|
| `UpdateQueueRuns.ReservationSafety` | rightmemory/async_update.py:933-1023 | in every state reachable by any interleaving of the queue operations, each cut off after any durable write: every live reservation passes the validation that resuming it performs, live reservations share no session, and no candidate whose publication ever began is in one |
| `UpdateQueueRuns.FinishRaisesOnlyBeforeStart` | rightmemory/async_update.py:1248-1272 | in reachable states finishing a reserved participant raises if and only if that participant has not been started yet |
| `UpdateQueueRuns.Conservation` | rightmemory/async_update.py:1605-1665 | in reachable states every accepted uid is in exactly one of current batch, pending, cancelled, finished or handed to Git, no uid belongs to two sessions, and live ids rise strictly and stay below the next id |
| `UpdateQueueRuns.AcceptedOnlyGrows` | rightmemory/async_update.py:1605-1665 | along every run the accepted uids of a session are only appended to |
| `UpdateQueueRuns.OutboxSafety` | rightmemory/async_update.py:1667-1745 | in reachable states a session has at most one outbox record it has not accepted, unmarked and carrying the next id, and reconciling raises for no part of the outbox it may list |
| `UpdateQueueRuns.RunKeepsInv` | rightmemory/async_update.py:155-200 | one invariant of sessions, ledger, outbox, publication marks, reservations and history is kept by every durable write of every operation, so by every run with crashes |
| `UpdateQueueEffects.NothingIsStranded` | rightmemory/async_update.py:1286-1297 | in every reachable state a session with candidates has a way on: running its batch, waiting with a flush time, failed with a retry time, or parked for manual recovery |
| `UpdateQueueSafety.ReconcileSafe` | rightmemory/async_update.py:1667-1745 | reconciling the outbox with a session raises nothing, every durable write of it keeps the invariant, and a full listing leaves no unaccepted record of the session |
| `UpdateQueueSafety.SubmitSafe` | rightmemory/async_update.py:268-324 | every durable write of a submit keeps the invariant |
| `UpdateQueueSafety.CancelSafe` | rightmemory/async_update.py:155-200 | every durable write of a cancellation keeps the invariant, so also that reserved candidates are live and that each accepted one is in one place |
| `UpdateQueueSafety.BeginPublicationSafe` | rightmemory/async_update.py:434-470 | every durable write of beginning a publication keeps the invariant, so also that nothing published is reserved |
| `UpdateQueueSafety.AcknowledgeSafe` | rightmemory/async_update.py:351-390 | acknowledging a published candidate keeps the invariant if and only if it does not empty the pending jobs of a session whose batch is still current |
| `UpdateQueueLimits.AcknowledgeThenEnqueueForgets` | rightmemory/async_update.py:374-388 | in the excluded case the next enqueued job makes the session forget its running candidates: they stay accepted but are in no place |
| `UpdateQueueLimits.AcknowledgeCanLoseBatch` | rightmemory/async_update.py:351-390 | a concrete state of the invariant in which the excluded case holds |
| `UpdateQueueLimits.BusyIsReachable` | rightmemory/async_update.py:351-390 | that state is reached by submitting, reserving, starting, submitting again and publishing |
| `UpdateQueueBatches.ValidationNeverRaises` | rightmemory/async_update.py:933-953 | under the invariant a reserved participant runs its batch or holds it as the untouched prefix of pending |
| `UpdateQueueBatches.ReserveSafe` | rightmemory/async_update.py:955-1023 | reserving keeps the invariant; the batch id is an injective function of the set of candidates |
| `UpdateQueueBatches.StartSafe` | rightmemory/async_update.py:1180-1246 | starting one participant keeps the invariant at its write |
| `UpdateQueueBatches.FinishSafe` | rightmemory/async_update.py:1248-1307 | finishing one participant keeps the invariant at each of its writes |
| `UpdateQueueBatches.FailParticipantSafe` | rightmemory/async_update.py:1315-1327 | failing one participant keeps the invariant |
| `UpdateQueueBatches.RetrySafe` | rightmemory/async_update.py:202-265 | sending a session in manual recovery back to the queue keeps the invariant |
| `UpdateQueueBatches.ClearSafe` | rightmemory/async_update.py:1144-1159 | removing an acknowledged reservation keeps the invariant |
| `UpdateQueueFinish.FinishIsResumable` | rightmemory/async_update.py:342-349 | any number of finish calls, each cut off after any durable write, followed by a complete one of the executor that owns the reservation, leave the sessions of one uninterrupted call up to timestamps, and neither raises; a call of the other executor raises as long as the reservation is there and writes nothing |
| `UpdateQueueFinish.ReservationGoesLast` | rightmemory/async_update.py:1144-1159 | while calls are cut off, the reservation is gone only when every participant names this operation as its last |
| `UpdateQueueFinish.SettledExactlyOnce` | rightmemory/async_update.py:1274-1307 | what the session writes that the calls executed take out of the batch and mark finished, counted with repetitions over all calls, is after a complete call exactly the candidates the operation owed, each once |
| `UpdateQueueFinish.SettledOnce` | rightmemory/async_update.py:1274-1307 | no candidate is settled by the executed writes of two of the calls, nor twice by one |
| `UpdateQueueEffects.FinishCallLeaves` | rightmemory/async_update.py:1274-1312 | what a complete finish leaves, field by field: each session has run nothing, names the operation and its result, has no attempts and no retry time; with pending jobs it waits with its old flush time or one an hour ahead, without any it has succeeded; its records and marks are gone, the other sessions are untouched, the reservation is removed |
| `UpdateQueueEffects.TerminalLeaves` | rightmemory/async_update.py:1574-1590 | a session whose operation already has an outcome is settled in the same way |
| `UpdateQueueEffects.StartLeaves` | rightmemory/async_update.py:1180-1246 | starting a reserved participant moves exactly its jobs from the front of pending into the running batch |
| `UpdateQueueEffects.SecondFailureParks` | rightmemory/async_update.py:1770-1788 | fail, start, fail, retry: the first failure sets a retry an hour ahead, the second parks the session for manual recovery, a retry makes it due at once, and no candidate is lost on the way |
| `UpdateQueueEffects.CancelLeaves` | rightmemory/async_update.py:155-200 | a cancellation takes a pending candidate out, with its outbox record, if and only if its publication has not begun and no reservation holds it; otherwise it changes nothing |
| `UpdateQueueEffects.SubmitLeaves` | rightmemory/async_update.py:1605-1665 | what an accepted submit leaves of the session: the new job at the end of pending under the next id, and the session waiting, running or failed as it has to be |
| `UpdateQueueEffects.AcknowledgeLeaves` | rightmemory/async_update.py:351-390 | what an acknowledgement leaves: exactly the published candidates leave pending, and a session with nothing left has succeeded |
| `UpdateQueueEffects.BeginPublicationLeaves` | rightmemory/async_update.py:434-470 | publication marks exactly a candidate that is pending, neither running nor reserved |
| `UpdateQueueEffects.ReserveLeaves` | rightmemory/async_update.py:955-1023 | a fresh batch of untouched pending prefixes is reserved under its id, and nothing else changes |
| `UpdateQueueEffects.ReserveWithdraws` | rightmemory/async_update.py:955-1023 | a batch that a publication or a cancellation has overtaken is withdrawn without a write |
| `UpdateQueueEffects.RetryCallLeaves` | rightmemory/async_update.py:202-265 | a retry requeues exactly the parked sessions of this executor, or leaves them parked if no worker starts |
| `UpdateQueueSubmit.InterruptedSubmitRetry` | rightmemory/async_update.py:268-324 | a submit cut off anywhere and sent again leaves the candidate accepted exactly once as one live job with its message; the second call raises if and only if the first stopped between outbox and session write on a session of the other executor |
| `UpdateQueueRetry.InterruptedSubmitRetryLater` | rightmemory/async_update.py:1605-1665 | the same with any run of other operations, each cut off anywhere, in between: the second submit queues one job for a uid not accepted yet and nothing for one that is, wherever it has got to since; the exact condition under which it raises |
| `UpdateQueueLimits.WorkerRetryCanRaise` | rightmemory/async_update.py:1615-1665 | a concrete run in which the retry of a worker submit does raise |
| `UpdateQueueStore.AsyncUpdateStore.Persist` | rightmemory/async_update.py:1838-1850 | one durable write applies to exactly one record, or nothing happens once the process has died |
| `UpdateQueueStore.AsyncUpdateStore.Reconcile` | rightmemory/async_update.py:1667-1745 | the loop over live jobs and outbox records makes exactly the planned writes, as far as the process lives |
| `UpdateQueueStore.AsyncUpdateStore.Submit` | rightmemory/async_update.py:268-324 | submit makes exactly the planned writes in order, and raises exactly when planned |
| `UpdateQueueStore.AsyncUpdateStore.Cancel` | rightmemory/async_update.py:155-200 | cancel makes exactly the planned writes |
| `UpdateQueueStore.AsyncUpdateStore.BeginPublication` | rightmemory/async_update.py:434-470 | publication makes exactly the planned writes |
| `UpdateQueueStore.AsyncUpdateStore.AcknowledgeSynchronized` | rightmemory/async_update.py:351-390 | the sessions are acknowledged in order, each by its own write, until one has started a candidate |
| `UpdateQueueStore.AsyncUpdateStore.Reserve` | rightmemory/async_update.py:955-1023 | reserve judges the participants in order and makes exactly the planned write |
| `UpdateQueueStore.AsyncUpdateStore.StartReservedBatch` | rightmemory/async_update.py:1180-1246 | the participants are started in order, each by its own write |
| `UpdateQueueStore.AsyncUpdateStore.FinishReservedBatch` | rightmemory/async_update.py:342-349 | a reservation of the other executor is refused; otherwise the participants are finished in order, then the reservation is cleared if all have acknowledged |
| `UpdateQueueStore.AsyncUpdateStore.FailCrossSessionBatch` | rightmemory/async_update.py:1315-1327 | the participants are failed in order |
| `UpdateQueueStore.AsyncUpdateStore.RetryManualRecovery` | rightmemory/async_update.py:202-265 | the sessions in manual recovery are requeued in order, each by its own write, and put back if the worker does not start |
| `SchedulerProofs.DeadlinesAreSound` | rightmemory/async_update.py:775-931 | if the scheduler finds no batch and names a deadline it finds none at any earlier time on the same state; if it names none it never will |
| `SchedulerProofs.DeadlineIsAhead` | rightmemory/async_update.py:775-931 | a named deadline lies after the present |
| `SchedulerProofs.WaitingBatchIsFairAndBounded` | rightmemory/async_update.py:836-880 | a batch of the waiting lane is a prefix of whole queues in order of ready time and session, headed by the oldest, and without its last queue stays below the target size |
| `SchedulerService.OverdueSessionIsServed` | rightmemory/async_update.py:836-880 | on session fields: with nothing to resume, a listed, unreserved, waiting session of this executor with pending jobs, none of them marked, whose flush time has passed by the longest wait yields a batch of whole pending queues with the flush times of their sessions |
| `SchedulerService.WaitingSessionsAreServed` | rightmemory/async_update.py:836-880 | with nothing to resume there is a batch of waiting sessions if and only if the waiting candidates reach the trigger or some session is overdue |
| `SchedulerService.DueReservationComesFirst` | rightmemory/async_update.py:882-931 | a reservation of this executor none of whose unfinished participants is parked or has a retry time ahead is resumed first, the oldest such one |
| `SchedulerService.RetryComesNext` | rightmemory/async_update.py:811-833 | then the failed sessions whose retry time has passed, all of them, by that time |
| `SchedulerService.ReadyGroupIsServed` | rightmemory/async_update.py:793-833 | before these a whole group of failed participants of one operation, once all its retry times have passed and none of it runs |
| `SchedulerService.NoCandidateIsForgotten` | rightmemory/async_update.py:775-880 | in reachable states every listed session with candidates is reserved, published, parked, or on one of the lanes with all its pending jobs |
| `SchedulerService.DeadlineIsSomeones` | rightmemory/async_update.py:775-931 | a named deadline is the retry or flush time of some session, or an overdue time |
| `SchedulerSafety.SchedulerResumesOnlyReservations` | rightmemory/async_update.py:882-931 | on reachable states the scheduler never meets a broken reservation, and a batch that names an operation resumes a live reservation |
| `Scheduler.ReadyBatch` | rightmemory/async_update.py:775-880 | the scheduler as it runs returns what the specification of its lanes and deadlines says |
| `Scheduler.SelectQueues` | rightmemory/async_update.py:862-880 | whole queues are taken in order until they reach the target |
| `Scheduler.ScanReservations` | rightmemory/async_update.py:882-931 | one pass over the reservations finds the ready one, the reserved sessions and the deadlines |
| `Wakeups.LostOnlyInWindow` | rightmemory/async_update.py:626-668 | in every reachable state the wake-up counted next can be left unserved with no worker left if and only if some worker has cleared its record and not yet released the leader lock |
| `Wakeups.WakeUpCanBeLost` | rightmemory/async_update.py:656-773 | a concrete run in which it is: the replacement tries the lock too early, returns, and the record names a dead worker |
| `Wakeups.SeenOrReplaced` | rightmemory/async_update.py:654-668 | a wake-up finds the recorded worker and makes it scan again before it clears its record, or finds no living worker recorded and starts one, or finds one started that has not tried the lock yet |
| `Wakeups.WakeUpIsServed` | rightmemory/async_update.py:1531-1573 | a wake-up counted outside that window is served: after four more steps of workers, whatever submitters do in between, a scan has begun that read the counter after it |
| `LandingProofs.LandsAtMostOnce` | rightmemory/isolated_write.py:312-581 | over any run of beginning, publishing, resuming and foreign commits, cut off after any durable write, in which messages and ids are disciplined, main holds at most one result of an operation, exactly the recorded one once it is committed, none while it is running or recorded without change, and the search by message finds exactly the results |
| `LandingProofs.LandedStays` | rightmemory/isolated_write.py:496-581 | a commit recorded as landed stays in the history of main |
| `LandingProofs.FindLandedFinds` | rightmemory/isolated_write.py:827-846 | the search finds a commit whose message claims the operation in a stripped line exactly when there is one after the start, and then the newest |
| `LandingProofs.PublishIsSerializable` | rightmemory/isolated_write.py:390-457 | a run that lands although main has moved, with a change of its own or with managed records only, lands every managed record with its content, its own tree on every other semantic path, and keeps the head everywhere else; nothing it may have read has moved |
| `LandingProofs.ResumeIsSerializable` | rightmemory/isolated_write.py:496-581 | so does a prepared outcome that a later process lands; its update records land as the candidate has them, deletions included |
| `LandingEffects.AcceptsExactly` | rightmemory/isolated_write.py:371-433 | a run is accepted if and only if each of its commits, the run as a whole and the candidate change only paths that the role may write or records that it may add, leave the root files in place, change something unless the role is the pruner, and nothing read has moved on main |
| `LandingEffects.BeginLeaves` | rightmemory/isolated_write.py:329-349 | beginning accepts a valid id of the same role and leaves a running record and no stale candidate |
| `LandingEffects.PublishLeaves` | rightmemory/isolated_write.py:390-467 | what a complete publication leaves of main, the records, the kept candidates and the numbers, in each case |
| `LandingEffects.DestinationMeans` | rightmemory/isolated_write.py:496-560 | a prepared candidate counts as landed if and only if it or a commit that claims its operation is on main, and otherwise lands if and only if its paths are allowed and nothing read has moved |
| `LandingEffects.ResumeLeaves` | rightmemory/isolated_write.py:496-581 | what finishing a prepared outcome leaves, and when it refuses |
| `LandingLimits.DisciplineIsExact` | rightmemory/isolated_write.py:1110-1126 | for every private message, foreign message and id: some run that is disciplined apart from it loses an operation or lands one twice if and only if the message quotes the trailer of another operation in an indented line, the foreign message claims one, or the id holds a line separator or ends in white space |
| `LandingLimits.QuotedOperationIsLost` | rightmemory/isolated_write.py:1118-1120 | a run without a crash in which a held operation whose trailer another message quotes is recorded committed and has not landed |
| `LandingLimits.ClaimedOperationIsLost` | rightmemory/isolated_write.py:842-845 | a foreign commit that carries the trailer does the same |
| `LandingLimits.UnsearchableLandsTwice` | rightmemory/isolated_write.py:841-845 | a run in which an operation whose id the search cannot find lands twice |
| `Paths.RoleWritesAreSemantic` | rightmemory/isolated_write.py:894-922 | every path a role may write is one whose change by others is noticed |
| `Paths.UpdateRecordsAreNotSemantic` | rightmemory/isolated_write.py:848-860 | update records are never such paths |
| `Paths.RoleWritesMean` | rightmemory/isolated_write.py:894-922 | which files each role may write, by name |
| `Paths.SemanticMeans` | rightmemory/isolated_write.py:848-859 | which files carry meaning that an operation may have read, by name |
| `LandingDrain.DrainFinishesAll` | rightmemory/isolated_write.py:583-604 | a drain that returns leaves nothing prepared but what is held: what was due is final, every other record is as before |
| `LandingDrain.DrainOrderIsSorted` | rightmemory/isolated_write.py:584-590 | a drain takes exactly the listed operations that are prepared and not held, by outcome number and then id |
| `LandingDrain.OutcomesAreNumbered` | rightmemory/semantic_operation.py:249-258 | in every run no two prepared outcomes have the same number, so a drain follows the order in which they were prepared |
| `LandingDrain.DrainIsARun` | rightmemory/isolated_write.py:583-604 | a drain cut off anywhere is a run of resumes, so everything proved of runs holds of it |
| `LandingStore.FindLandedCommit` | rightmemory/isolated_write.py:827-846 | the loops over commits and message lines from the head back to the start find the newest commit that claims the operation |
| `LandingStore.ValidateSteps` | rightmemory/isolated_write.py:371-380 | every private commit is checked before squashing hides it |
| `LandingStore.IsolatedWriteSupervisor.Begin` | rightmemory/isolated_write.py:329-349 | begin makes exactly the planned writes |
| `LandingStore.IsolatedWriteSupervisor.Publish` | rightmemory/isolated_write.py:390-467 | pin, number, prepare and, unless the outcome is held, land, complete and unpin happen in this order, as far as the process lives |
| `LandingStore.IsolatedWriteSupervisor.ResumePrepared` | rightmemory/isolated_write.py:496-581 | a prepared outcome is found landed, landed or refused, and the record follows |
| `LandingStore.IsolatedWriteSupervisor.DrainPrepared` | rightmemory/isolated_write.py:583-604 | what is due is collected, sorted and finished in order until one fails |
| `Edges.RemovesExactly` | rightmemory/graph.py:165-183 | removing targets from a line drops exactly the edges with these targets and leaves the anchor, depth, id and kind of the line as they were |
| `Edges.ChangesOnlyTargets` | rightmemory/graph.py:165-183 | a line stays the same if and only if none of its edges has such a target |
| `Edges.RemovalsCompose` | rightmemory/graph.py:165-183 | removing two sets one after the other is removing their union |
| `Edges.RemovalKeepsEnding` | rightmemory/graph.py:165-183 | the line ending is kept |
| `Edges.SplitJoin` | rightmemory/graph.py:165-183 | splitting a joined list of tokens gives the tokens back |
| `Edges.JoinSplit` | rightmemory/graph.py:165-183 | joining a split list gives the list back |
| `LineGrammar.MatchMeans` | rightmemory/graph.py:30-33 | an anchor stands in a heading exactly where braces enclose a marker and an id and only an arrow with a bracketed list, or nothing, follows to the end of the line |
| `LineGrammar.NodeStartMeans` | rightmemory/graph.py:38-39 | a node line is white space, a dash, white space and a code span |
| `LineGrammar.EdgeMeans` | rightmemory/graph.py:42-42 | a token is an edge exactly if it is a word, a colon and an id, apart from white space |
| `HeadingEdits.RenderReads` | rightmemory/graph.py:84-149 | every heading that can be rendered is read back: depth, title, kind, id and edges, whatever line ending follows |
| `HeadingEdits.RenderAccepts` | rightmemory/graph.py:113-145 | which headings are rendered: a title that is one line and shows no anchor, valid ids, known edges, a depth the kind allows |
| `HeadingEdits.ReplaceReads` | rightmemory/graph.py:152-162 | a new title changes what is read of an addressed heading in nothing but the title, and is refused exactly for other lines and unclean titles |
| `HeadingEdits.ReplaceAgain` | rightmemory/graph.py:152-162 | the last title counts, and the old title brings the line back to the character |
| `HeadingEdits.ReadIsIndexed` | rightmemory/graph.py:84-99 | the document index takes from a heading what its reader takes |
| `PursuitFenceProofs.FenceKeepsMemory` | rightmemory/isolated_write.py:973-1004 | a Memory change that the fence accepts has the same Memory items before and after, each with exactly its old edges minus those to deleted Pursuit ids |
| `PursuitFenceProofs.FenceKeepsLines` | rightmemory/isolated_write.py:973-998 | every other line of every Memory document is the same to the byte |
| `PursuitFence.IsPursuitEdgeRemoval` | rightmemory/isolated_write.py:973-998 | the check as it runs accepts exactly when the changed paths are those with a deleted reference and each has the expected text and mode |
| `PursuitFenceProofs.AcceptsMeans` | rightmemory/isolated_write.py:973-998 | the fence accepts exactly the changes of the files with an edge to a Pursuit id that has gone, each there before and after, with the same mode and with just these edges taken from its lines |
| `PursuitFenceProofs.ItemsAreFirsts` | rightmemory/graph.py:901-916 | the items of a commit are the addressed headings and nodes of its loaded documents, each id where it first occurs |
| `PursuitFenceProofs.AddressedMeans` | rightmemory/graph.py:901-916 | the addressed lines are exactly the headings with an id and the nodes of these documents, with the edges the line carries |
| `TextLines.Resplit` | rightmemory/isolated_write.py:985-998 | lines with other content and the same endings, put together, are split into the same lines |
| `TextLines.SplitKeepsText` | rightmemory/isolated_write.py:985-998 | cutting a text into lines loses nothing |
| `TextLines.FirstEndMeans` | rightmemory/isolated_write.py:985-998 | a line ends after its first boundary, a carriage return and line feed counting as one |
| `Index.ParseDocument` | rightmemory/graph.py:486-824 | one pass with a stack of open headings gives every block the parent, end, parts and body that the whole document determines |
| `IndexLines.FormsMean` | rightmemory/graph.py:486-664 | on the lines themselves: a line is a heading if and only if it begins like one and no fenced block is open before it; focus references, nodes and old fields likewise, and everything else is text |
| `IndexLines.HeadsMean` | rightmemory/graph.py:516-566 | a heading shows the kind, id and edges of its anchor, else the kind and, if it is valid, the id of the first marker in braces, else nothing |
| `Fences.FenceMeans` | rightmemory/graph.py:47-47 | a fence line is up to three blanks and three or more of one mark |
| `Fences.OpenFenceIsIn` | rightmemory/graph.py:507-514 | the fence state of the parser is the block that an earlier fence line has opened and no fence line since, of its mark and at least its length, has closed |
| `IndexLines.FocusHeadingMeans` | rightmemory/graph.py:43-43 | a focus heading is two number signs and the word in any case |
| `IndexLines.LegacyFieldMeans` | rightmemory/graph.py:41-41 | the old fields of a pursuit, in any case |
| `IndexProofs.ParsingLosesNothing` | rightmemory/graph.py:486-824 | reading the parts of a document in order gives back every line once |
| `IndexProofs.SpanEnds` | rightmemory/graph.py:516-519 | the span of a heading ends just before the next unfenced heading of equal or smaller depth |
| `IndexLines.SpanEndsOnLines` | rightmemory/graph.py:516-519 | on the lines: the span of a heading ends just before the next heading line outside of every fenced block with as few number signs, or with the document |
| `IndexProofs.ChildrenNest` | rightmemory/graph.py:486-824 | a child starts after its parent, ends inside it, and siblings do not overlap |
| `IndexProofs.BodiesPartition` | rightmemory/graph.py:866-898 | each line is a heading or in the body of exactly one block |
| `IndexLines.BodiesOnLines` | rightmemory/graph.py:866-898 | on the lines: a line that is no heading is in the body of the nearest heading line before it outside of fenced blocks |
| `Index.Finalize` | rightmemory/graph.py:866-898 | the body of a block ends before its first child heading or with the block |
| `Documents.ParsedIsTree` | rightmemory/graph.py:486-824 | each block is listed once, by its parent, which comes before it |
| `Documents.ReadDocument` | rightmemory/graph.py:666-683 | the detail files that headings name, in order |
| `Documents.RefsMean` | rightmemory/graph.py:666-683 | exactly the `F#` headings with an id name a file, the one for their id; the reserved id of pursuits names none |
| `Manifest.GraphManifest.Build` | rightmemory/graph.py:387-409 | loading both roots ends, reads the documents in the order of a depth-first search, and leaves a forest |
| `Manifest.GraphManifest.LoadDocument` | rightmemory/graph.py:412-483 | one document and everything below it: termination on cyclic references, and the forest invariant |
| `Manifest.GraphManifest.LoadReference` | rightmemory/graph.py:457-482 | missing files and cycles are left alone, anything else is loaded and attached |
| `Manifest.GraphManifest.AttachDetail` | rightmemory/graph.py:974-996 | the splice of a document into a heading moves exactly the children that no other heading has |
| `Forest.AttachKeeps` | rightmemory/graph.py:974-996 | attaching a document for the first time keeps every block listed once by its parent |
| `Forest.AttachAgainKeeps` | rightmemory/graph.py:974-996 | attaching it from another heading moves no block |
| `Forest.FirstAttachAppends` | rightmemory/graph.py:974-996 | a first attachment leaves the heading its own parts, an empty line unless it ends with one, and the parts of the file in order, and changes no other list |
| `Walk.ParentIsBefore` | rightmemory/graph.py:412-483 | load order and line strictly decrease along logical parents |
| `Walk.WalkVisitsOnce` | rightmemory/graph.py:318-326 | the walk from the roots visits every non-root block exactly once, parents first; of two blocks in different branches the one whose branch the common parent lists first comes first, and one tree comes after the other |
| `Walk.LoadingIsExact` | rightmemory/graph.py:412-483 | the documents loaded are the roots and what loaded headings name, each once |
| `Walk.AssignRanks` | rightmemory/graph.py:1143-1157 | ranks are distinct, every child ranks after its parent, and the smaller rank comes first in the order of the parts |
| `GuidanceMerge.MergeIsSymmetric` | rightmemory/guidance.py:57-91 | swapping the two sides gives the same entries in the same order, or the same conflict |
| `Ordering.LessMeans` | rightmemory/guidance.py:66-91 | one text comes before another exactly if it is a proper prefix or has the smaller character at the first difference |
| `GuidanceMerge.MergeTextIsSymmetric` | rightmemory/guidance.py:57-91 | so it does for whole inbox texts, the printed result and every refusal included |
| `GuidanceMerge.OneSidedChangesSurvive` | rightmemory/guidance.py:66-83 | every addition, edit or deletion that only one side made survives |
| `GuidanceMerge.ConflictIffBothChanged` | rightmemory/guidance.py:66-83 | there is a conflict if and only if both sides changed one id and differently, and the first such id in the order of characters is reported |
| `GuidanceMerge.MergeKeepsOrder` | rightmemory/guidance.py:86-91 | surviving base entries keep their order and come first; of two additions the first has the earlier time of submission, or the same and the earlier id |
| `GuidanceRoundTrip.ParseUndoesRender` | rightmemory/guidance.py:44-54 | parsing undoes rendering on well-formed entries if and only if every body keeps its fences and headings to itself |
| `GuidanceLines.ParseMeans` | rightmemory/guidance.py:144-212 | which texts are an inbox, on their lines: the title first, every fenced block closed, every entry heading whole, only blank lines before the first, different ids, and in each block provenance and evidence; its entries are those of the blocks in order |
| `GuidanceLines.EntryMeans` | rightmemory/guidance.py:180-212 | a block holds an entry exactly if after blank lines come a session and a valid submission line and then, after blank lines, evidence |
| `GuidanceLines.EntryIdMeans` | rightmemory/guidance.py:16-16 | an entry id is `GI-`, eight digits, a dash and eight hexadecimal digits |
| `GuidanceResults.ParsedAreWellFormed` | rightmemory/guidance.py:144-212 | parsed entries are well formed and have distinct ids |
| `GuidanceResults.MergeParsesBack` | rightmemory/guidance.py:57-91 | the merged text parses back to exactly the merged entries if and only if each body that is selected, id by id, from the parsed sides is self-contained |
| `GuidanceResults.SelfContainedSidesParseBack` | rightmemory/guidance.py:57-91 | two sides whose bodies are all self-contained always merge to a text that parses back |
| `GuidanceResults.IndentedFenceIsLost` | rightmemory/guidance.py:205-208 | a valid inbox whose merge with itself does not parse back: the indentation of a body is stripped and its first line becomes a fence |
| `GuidanceResults.MergeOfSame` | rightmemory/guidance.py:57-91 | merging what nobody changed gives it back |
| `GuidanceInbox.ParseInbox` | rightmemory/guidance.py:144-212 | the parser loops compute the specified entries |
| `GuidanceInbox.FindStarts` | rightmemory/guidance.py:154-176 | the pass with the fence state finds exactly the unfenced headings |
| `GuidanceInbox.RenderInbox` | rightmemory/guidance.py:44-54 | the printer loop computes the specified text |
| `GuidanceInbox.MergeInbox` | rightmemory/guidance.py:57-91 | the merge loops compute the specified result |
| `EmbeddingSearch.EmbeddingRetriever.Vectors` | rightmemory/embedding_retrieval.py:156-182 | with a correct, missing or foreign cache every text, repeated or not, gets its fresh vector; a text is embedded if and only if the file of this model and root has no usable vector for it, once, in batches that are not too large, and the file then holds exactly these texts |
| `EmbeddingSearch.Select` | rightmemory/embedding_retrieval.py:136-154 | the result is the reranked choice: as many distinct entries as asked for and available; the one in place `i` is the entry that exactly as many others beat by their best passages as the reranker names at `i` |
| `EmbeddingSearch.BestAreBetter` | rightmemory/embedding_retrieval.py:145-152 | an entry left out is no better than one kept |
| `EmbeddingSearch.BestIsBest` | rightmemory/embedding_retrieval.py:146-149 | the passage that stands for an entry scores best of its passages |
| `EmbeddingSearch.BestIsFirst` | rightmemory/embedding_retrieval.py:146-149 | and it is the first with that score |
| `ClientLeases.ShutdownWaitsForEverything` | rightmemory/codex_sdk.py:308-318 | under any interleaving of turns and closers a close that returned has seen every acquired client closed exactly once, and from the first close on nothing is acquired |
| `ClientLeases.CountersAreExact` | rightmemory/codex_sdk.py:320-376 | the two counters always equal the numbers of leases in use and being closed |
| `ClientLeases.AcquireLeaves` | rightmemory/codex_sdk.py:320-339 | a new client is leased to its caller unless closing has begun, and nothing else changes |
| `ClientLeases.NobodySleepsForEver` | rightmemory/codex_sdk.py:308-376 | closers sleep until a notification; once no lease is left the closers look at most twice each, in any order, and when none that has been notified is left to look, all have returned |
| `ClientLeases.CodexSdkRunner.ReleaseCodex` | rightmemory/codex_sdk.py:340-362 | the last release of a client schedules its close exactly once |
| `ClientLeases.CodexSdkRunner.FinishClose` | rightmemory/codex_sdk.py:363-376 | the lease of a closed client goes |
| `ThreadCleanup.AgentCliThreadCleanup.Run` | rightmemory/agent_cli_cleanup.py:85-159 | a pass, also one that fails midway, removes no fork base that a remaining record names, nothing but idle threads that are free, and releases every lease it took; a complete pass deletes exactly the ready threads that the provider deletes, marks exactly the other ready ones, and reports how many were deleted, are marked and were skipped |
| `ThreadCleanup.AgentCliThreadCleanup.PrepareAll` | rightmemory/agent_cli_cleanup.py:97-121 | the threads prepared are exactly those that are ready; a failure releases the leases |
| `ThreadCleanup.AgentCliThreadCleanup.DeleteRecords` | rightmemory/agent_cli_cleanup.py:163-214 | refused threads stay marked, the others go, and the leases are released on every exit |
| `ThreadCleanup.AgentCliThreadCleanup.PrepareForDeletion` | rightmemory/agent_cli_cleanup.py:216-276 | a lease is kept only for a thread that is due and, for a fork base, that no record names |
| `ThreadCleanup.ReadyBasesKeepParents` | rightmemory/agent_cli_cleanup.py:122-147 | if the bases deleted had no child left, none of them is named afterwards |

## Left out

- UpdateQueueFinish.FinishIsResumable: for batches whose participants have all been started, which is when callers finish one, and with nothing but finish calls in between; over runs of all operations `UpdateQueueRuns.FinishRaisesOnlyBeforeStart` says when finishing raises.
- UpdateQueueStore.AsyncUpdateStore.AcknowledgeSynchronized: the number of candidates it returns.
- UpdateQueueStore.AsyncUpdateStore.RetryManualRecovery: the counts it returns, and the skipping of session files that cannot be read.
- UpdateQueueRuns.ReservationSafety: for runs without the acknowledgement described above, which would break it.
- Ties of equal retry times between failed operations are broken by listing order, not by operation id.
- Reading a session checks its operation record first; that is modelled as separate finish and fail steps that may come before any operation.
- Legacy state forms, worker pids, status text, stop requests, batch prompts and the failure exits of the worker loop.
- The synchronized Git lease and the coordinator of published batches: only what the queue relies on.
- Completing a held outcome by an external commit, superseding and restarting operations, and merge commits: main stays linear.
- Wake-ups of a sleeping closer without a notification.
- LandingStore.ValidateSteps: the landing fence checks paths, empty commits and root files; that a pursuit-map commit also passes the edge-removal check, and that an empty pruner commit carries the checkpoint subject, is not part of landing, so the landing results hold for more commits than the code accepts.
- Restoring a verified deletion through the pursuit fence.
- PursuitFence.IsPursuitEdgeRemoval: without the test of both graphs for errors that comes first; so the model accepts more, and the results still hold.
- Diagnostics of the document index, prose, content hashes, and the copied text parts with their line numbers.
- ManagedArtifacts, worktrees, leases of worktrees and branch clean-up.
- Digits and letter case are those of ASCII where the regular expressions would take more of Unicode.
- Lines are assumed to hold no line feed inside, as the parser's own lines do.
- The normalization of line endings and the splitting into lines of the guidance inbox are one step; its error messages are one error.
- Opening a guidance worktree and committing to it.
- The rendering of retrieved entries as a tree, the rounding of vectors, and the service's own validation.
- The prefixes, session mappings and lease files of provider threads; malformed records.
- File, fsync, lock, process, subprocess and network primitives, the command line, configuration and installation.
