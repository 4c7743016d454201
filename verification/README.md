# The /queue gateway, verified

A model of the asynchronous `/queue` chain of the gateway and proofs of what it promises.  A request
becomes a row in the `tasks` table.  On the immediate path it takes a concurrency slot at once and is
queued for submission; on the batched path it waits, without a slot, in a Redis batch until a size
trigger, a timer, a retry or the sweep releases it.  Creators, triggers, retries, the sweep, workers,
probes and cancellations all race on the row, on the per-token counter and on the batch.

## The project

- `TaskStore` -- the rows, the SQL statements (functions on a row, and class `TaskTable` that runs them in
  place), the rescue query.
- `RateLimit` -- the concurrency counters and the sliding window.
- `Batching` -- headers, effective plan, grouping key, retry delay.
- `Protocol` -- the release, slot and terminal protocol as a transition system: one actor with a program
  counter per asynchronous procedure, one step per awaited call, crashes, lost messages, raising calls,
  passing time.  Its statements follow app/services/relayflow.py:240-248 (slot return), 320-454 (accept),
  462-545 (release), 630-672 (finalize), 675-706 (probe), 709-748 (cancel), 785-901 (submit) and
  1002-1021 (rescue).
- `ProtocolHistory`, `ProtocolRows` -- what every run keeps.  `ProtocolAnswers` -- what becomes of the
  answers of the upstream and of the batch index.  `ProtocolPromise` -- which 202 answers keep a task in
  the sight of the rescue.  `ProtocolRescue` -- what the rescue achieves.  `ProtocolEnds` -- what follows the
  end of a task.  `ProtocolRelease`, `ProtocolSlots` -- what holds under the hypotheses below.
  `ProtocolRaces` -- what goes wrong without them.
- `Relay`, `Requests` -- the procedures as written, on a shared world in which anybody else may move at
  every awaited call; they continue the run that they find by the steps of their actors, so that all
  theorems about runs apply to them, keep their books, and leave the row as they report.
- `BatchIndex`, `BatchHistory`, `Triggers` -- the batch scripts as a store updated in place, whole histories
  of it, and the two triggers of a batch.
- `Idem`, `Queue`, `Upstream`, `SweepLock`, `NativeApi`, `Ids` -- idempotency keys, retry and dead letters,
  circuit breaker, sweep lock, id rewriting, id shape.

## Hypotheses

Three properties of runs that the code does not enforce, each with a run that shows what happens
without it (`ProtocolRaces`):

- H1 (`ProtocolRelease.ClaimsInTheGap`): no claim is won between another releaser's `unclaim_for_release`
  and the unguarded write of `requeue`.  They are two statements.
- H2 (`ProtocolRelease.UnsticksTheLiving`): the sweep un-claims a `releasing` row only after its owner has
  stopped; the 120 s grace is meant to see to that.
- H3 (`ProtocolSlots.Overreleases`): nothing fails on the immediate path between the creation of the row,
  whose mask already says that it holds a slot, and the end of the request.

Terminal-once, absorption, the limit on the counter and no silent stall need none of them; but no silent
stall is a promise to the request that created the task.  A request that repeats its idempotency key is
answered with 202 as well, possibly for a task whose own request failed before it wrote a due time;
`ProtocolPromise.PromiseExactly` says for which acknowledged tasks the promise holds, and
`ProtocolPromise.ReplayedAnswerStalls` is a run in which it does not.

The exclusion property is exact in H1 (`ProtocolRaces.ExclusiveExactly`), the slot equality in H3
(`ProtocolSlots.SlotConservation`), and the cap in what H3 forbids (`ProtocolSlots.CapExactly`).  That a
key has at most one row is exact too (`Idem.OneRowExactly`); three hypotheses are enough for it
(`Idem.InTime`, `Idem.KeyLasts`, `Idem.BackFillSafe`), each with a run that breaks the property.

Where comments and code of the repository differ the code is followed: the restore state of an un-claim
is always `waiting` (app/services/taskstore.py:429 and its callers), also after a requeue; a rescued
`releasing` row is judged by `updated_at`, not by `batch_due_at`; and the rule that no task hangs
silently (app/services/taskstore.py:516-519) does not cover a replayed 202 for a task without a due time.

## Model

| member | source | states |
|---|---|---|
| ProtocolHistory.NoSilentStall | app/services/relayflow.py:284-317 | In every run, triggers lost and actors crashed at any point, a batched task whose own request was answered 202 is in every later state past SUBMITTED, or released, or selected by the rescue query from its due time or last write (whichever is later) plus the grace on |
| ProtocolPromise.PromiseExactly | app/services/relayflow.py:332-343 | A batched task that was answered 202, by its own request or by an idempotent replay, is in every later state of every run past SUBMITTED, released or selected by the rescue query at some time, if and only if at the answer it is past SUBMITTED, released or has a due time |
| ProtocolPromise.OwnAnswerIsKept | app/services/relayflow.py:284-317 | After the answer to its own request a batched task has a due time or is past that, so the promise holds |
| ProtocolPromise.KeptExactly | app/services/taskstore.py:540-562 | A batched, submitted, unreleased row is selected at some time if and only if it is being released or has a due time, and with a due time at all times from due time and last write plus the grace on |
| ProtocolPromise.NextKeepsFirm | app/services/relayflow.py:320-901 | Once past SUBMITTED, released or with a due time, a row stays so through every event |
| ProtocolPromise.ReplayedAnswerStalls | app/services/relayflow.py:428-454 | A run in which the join raises after the key was filled, a replay is answered 202, and the row waits with no due time |
| ProtocolPromise.StallsForGood | app/services/relayflow.py:428-454 | Such a row is never selected in any continuation in which nobody starts a release job for it, unless it ends otherwise |
| ProtocolRescue.RescueSettles | app/services/relayflow.py:1002-1021 | If nobody else works on the task, the rescue's job on a selected row ends, after at most ten statements, with the task published, put off by one attempt for the delay of that attempt, or terminal, whatever handled failures happen and whatever goes on at other tasks; the row is then no longer selected |
| ProtocolRescue.PutOffIsGraced | app/services/taskstore.py:555-559 | A row just put off is selected by the rescue query exactly from its new due time plus the grace on |
| ProtocolRescue.RescueEnds | app/services/relayflow.py:1002-1021 | In every run, whatever others do to the task meanwhile (cancel, claim, un-claim or publish it), the rescue's job on a selected row takes at most ten statements, and if its last one is not an unhandled raise it has then published the task, or put it off by one attempt, or the row is past SUBMITTED, released or releasing; releasing only if another actor has won the claim since the job began or the job's own un-claim raised |
| ProtocolRescue.ReleaseEnds | app/services/relayflow.py:462-545 | Every release job on a batched task, whoever triggered it, whose last statement is not an unhandled raise ends with the task published, put off by one attempt, past SUBMITTED, released or releasing |
| ProtocolRescue.NextKeepsClean | app/services/relayflow.py:1009-1021 | Unless another actor wins the claim or the job's own un-claim raises, an event leaves a row in releasing only while the job has its own claim in hand |
| ProtocolRescue.JobsAreShort | app/services/relayflow.py:462-545 | Every release job takes at most ten statements, whatever others do |
| ProtocolRescue.JobStepOk | app/services/relayflow.py:462-545 | Each statement brings a release job closer to its end, and a last one that is not an unhandled raise ends it in one of these ways |
| ProtocolRescue.RescueCanStart | app/services/taskstore.py:509-571 | Every selected row can be taken up by a rescue job |
| ProtocolRescue.RescueNeverStuck | app/services/relayflow.py:462-545 | Until it is done the job of a rescue left alone always has an answer with which it goes on |
| ProtocolRescue.NextKeepsWorking | app/services/relayflow.py:462-545 | Each own step brings the job of a rescue left alone closer to its end and, at the end, to a settled row; steps on other tasks leave it where it is |
| ProtocolHistory.TerminalOnce | app/services/relayflow.py:630-672 | Over any run a task is won, logged and called back at most once; called back only if _finalize_queue won and there is an address; the enqueue-failure path is never logged |
| ProtocolAnswers.EndsAsAnswered | app/services/relayflow.py:689-706 | A task that ended in a run ended as somebody was told: with the status and reason of an answer that the upstream gave to its winner, a submission or a probe; canceled by the user; or FAILURE after a failed publication |
| ProtocolAnswers.WinRecordsTheAnswer | app/services/relayflow.py:875-883 | In the moment of a finalizing win the row takes status, reason and, if it came with it, the upstream id of an answer that the winner was given; a lost one changes nothing |
| ProtocolAnswers.ProbeAdvancesAsAnswered | app/services/relayflow.py:675-706 | A probe moves an active row to the status that it was answered with, another of its statements touches the time stamp only, and the others write nothing |
| ProtocolAnswers.DueIsTheJoins | app/services/relayflow.py:293-296 | The due time of a batched row whose own request was answered, and which nobody has put off since, is the deadline that the batch index answered to the join of an actor of this task |
| ProtocolEnds.EndedIsNotSent | app/services/relayflow.py:515-528 | Once a task has ended and nobody who saw it active is about to publish it, the release path publishes it no more, in any run |
| ProtocolEnds.EndedGiveBack | app/services/relayflow.py:240-248 | In a run without crashes, in which neither the claim of a mask nor the recheck raises, the slot of every ended task is at all times owed by a living actor |
| ProtocolEnds.QuietRowsHoldNone | app/services/relayflow.py:240-248 | In such a run an ended task on which nobody works holds no slot |
| ProtocolHistory.TerminalIsAbsorbing | app/services/taskstore.py:124-202 | Whatever follows in a run, a terminal row keeps status, progress, finish time and fail reason |
| ProtocolHistory.WinsAreTransitions | app/services/taskstore.py:131-151 | The counted wins are exactly the steps in which a row turns from active to terminal |
| ProtocolHistory.LateAnswerOnlyRecords | app/services/relayflow.py:885-901 | On a terminal row the statement that would queue the task writes nothing and leads to the next one, and that one records the upstream id and nothing else; others may move in between |
| ProtocolHistory.CounterNeverExceedsLimit | app/redis.py:65-73 | In every state of every run each token's counter is at most the limit |
| ProtocolHistory.NextKeepsHistory | app/services/relayflow.py:320-901 | Every event of the machine keeps the whole history invariant: rows only evolve, winners are unique, acknowledged rows keep batch state and due time, counters stay capped |
| ProtocolHistory.HistoryAlways | app/services/relayflow.py:320-901 | The history invariant holds in every reachable state, and history only grows |
| ProtocolRows.NoContradictoryRow | app/services/relayflow.py:876-884 | Over any run a row stays at 100% exactly if it is terminal, and unfinished otherwise |
| ProtocolRows.EndIsStamped | app/services/taskstore.py:136-151 | A task that ends in an event has that instant as its finish and update time |
| ProtocolRows.WriteOfStep | app/services/relayflow.py:320-901 | Every write of every statement stamps its row, keeps it consistent, stamps an end, and leaves owner, callback and the status columns of a terminal row alone |
| ProtocolRows.ChangesAreStamped | app/services/taskstore.py:124-202 | A row that an event creates or changes carries the time of the event |
| ProtocolRows.NextIsSteady | app/services/taskstore.py:124-202 | Every event, in any state at all, leaves all rows in the table, with owner, callback and terminal status columns |
| ProtocolRelease.ExclusiveRelease | app/services/taskstore.py:392-463 | In a run that meets H1 and H2 at most one live actor per task is between winning the claim and its last write on the row |
| ProtocolRelease.PublishedAtMostOnce | app/services/relayflow.py:462-545 | In such a run the release path attempts to publish a task at most once over the whole run, and only a released one |
| ProtocolRelease.SubmissionsHoldASlot | app/services/relayflow.py:800-830 | Every upstream submission that a worker starts on a message of the service is for a row that holds a slot |
| ProtocolRelease.ActiveRowsHoldASlot | app/services/relayflow.py:498-543 | An active row without a slot is waiting, requeued or being released, or its publication failed |
| ProtocolRelease.ManualSubmissions | app/services/relayflow.py:800-814 | A manually requeued message passes the gate without a slot only for a row that is being released at that moment or whose publication failed |
| ProtocolRelease.NextKeepsRelease | app/services/relayflow.py:462-545 | Every event that meets H1 and H2 keeps exclusion, what each releaser knows of its row, one publication attempt per task, and the cover of submissions |
| ProtocolRelease.ReleaseAlways | app/services/relayflow.py:462-545 | These invariants hold after every disciplined run |
| ProtocolRaces.ExclusiveExactly | app/services/relayflow.py:498-513 | With H2, exclusion holds throughout a run if and only if no claim is won between an un-claim and its requeue write |
| ProtocolRaces.GapClaimBreaksExclusion | app/services/batching.py:402-432 | A claim won in that gap puts two live actors into the section at once |
| ProtocolRaces.UnstickingTheLivingBreaksExclusion | app/services/relayflow.py:1012-1016 | A rescue that un-claims the row of a living releaser puts two live actors into the section by its next two statements |
| ProtocolRaces.GapPublishesTwice | app/services/relayflow.py:498-502 | From any waiting row there is a run through the gap that publishes the task twice |
| ProtocolRaces.RescueOfTheLivingPublishesTwice | app/services/relayflow.py:1002-1021 | From any waiting row there is a run in which a releaser slower than the grace and the rescue both publish |
| ProtocolRaces.ExcessDecrementBreaksTheCap | app/services/relayflow.py:443-446 | Without H3 a run of two requests ends with one more slot-holding row than the limit |
| ProtocolRaces.SuchTablesExist | app/services/relayflow.py:462-545 | Start states of the kind these runs begin in exist |
| ProtocolSlots.SlotConservation | app/services/relayflow.py:240-248 | Over a disciplined run counter = rows with a mask + actors holding a slot + leaks, for every token in every state, if and only if the immediate path's handler never gives back the slot of a row it has already created |
| ProtocolSlots.NextKeepsBalance | app/services/relayflow.py:443-446 | One event keeps the books balanced if and only if it is not that excess decrement |
| ProtocolSlots.ClampIsNeverTaken | app/redis.py:75-79 | In balanced books no honest decrement meets a counter at 0 |
| ProtocolSlots.CounterNeverAhead | app/services/taskstore.py:466-499 | Even with excess decrements the counter never exceeds what is accounted for |
| ProtocolSlots.ConcurrencyCap | app/deps/ratelimit.py:34-55 | Rows that hold a slot plus actors that hold one never exceed the counter, which never exceeds the limit, however large the batches |
| ProtocolSlots.CapExactly | app/services/relayflow.py:443-446 | After any disciplined run, excess decrements or not, what is accounted for exceeds the counter by exactly the excess decrements less the clamped honest ones, and the cap holds if and only if the counter leaves room for that |
| ProtocolSlots.GapOfEvent | app/redis.py:75-79 | What one event adds to that gap |
| ProtocolSlots.BooksOfRun | app/services/relayflow.py:462-545 | The books of one step: what row and actor hold, and what leaked, moves exactly as the counter was asked to move, up to the handler's one excess decrement |
| Relay.World.ReleaseBatchedTask | app/services/relayflow.py:462-545 | The procedure, whatever others do and whichever calls raise at its awaited calls, continues the run that it found and takes its actor from the first statement to the end; released is said exactly by the one that published, requeued only with the row put off, by the delay of the attempt after the one that the job read, skipped only when at the last statement there is nothing to release; a task that had ended before is left alone; every slot taken is on the mask or given back |
| Relay.World.TakeSlotAndDispatch | app/services/relayflow.py:492-545 | From the won claim on: sent or skipped only with one mask set, and requeued only with the row put off and no mask set; skipped leaves the row past SUBMITTED |
| Relay.World.Dispatch | app/services/relayflow.py:523-545 | From the written mask on: a task that has ended is not sent, no slot is taken, sent means one publication with the message in the queue, skipped a row past SUBMITTED, and every mask zeroed is followed by one decrement |
| Relay.World.Undo | app/services/relayflow.py:535-543 | After a failed publication: skipped means a row past SUBMITTED, FAILURE if its own CAS won; every mask zeroed is followed by one decrement, and nothing is published |
| Relay.World.BackOff | app/services/relayflow.py:499-502 | Un-claim, then requeue; told as requeued exactly if the requeue was written |
| Relay.World.ReleaseSlot | app/services/relayflow.py:240-248 | At most one mask is zeroed, and exactly as many slots are given back as masks were zeroed; it raises exactly if the claim did |
| Relay.World.ReleaseBatch | app/services/batching.py:365-394 | released counts the publications, requeued the members put off and those that raised, skipped the rest; together they are the claimed batch |
| Relay.World.RescueOverdueBatches | app/services/relayflow.py:1002-1021 | The count returned is the number of its publications; a round that finishes has brought every listed row's job to its end |
| Relay.World.Rescue | app/services/relayflow.py:1009-1020 | One turn of the loop, from the un-claim on exactly for rows listed as releasing; skipped only when there is nothing to release |
| Relay.CodeKeepsThePromises | app/services/relayflow.py:462-545 | At every point at which the World is valid its own counters are within the limit, each task was won and called back at most once and ended as answered, every acknowledged batched row with a due time is past SUBMITTED, released or selected by the rescue query in time, one whose own request was answered has a due time, and, if the run was disciplined, no task was published twice |
| Relay.OthersLeaveUsAlone | app/services/relayflow.py:462-545 | Steps of other processes leave all rows steady and move no actor of this one |
| Requests.FinalizeQueue | app/services/relayflow.py:630-672 | Its win leaves its status and reason on the row, and the upstream id has been recorded; a loser finds the row terminal; only the winner logs and calls back, once each, the callback only with an address; it raises exactly if its last statement did |
| Requests.AdvanceFromProbe | app/services/relayflow.py:675-706 | After the answer of a probe the row is terminal if that says so, with this status if the own CAS won; it has another active status that was answered, or is terminal; an answer that maps to nothing or to the status read wins nothing |
| Requests.ProbeTask | app/services/relayflow.py:553-606 | The same from the first read on, which asks exactly for active rows with an upstream id |
| Requests.ReadForProbe | app/services/relayflow.py:560-574 | Goes on exactly for an active row with an upstream id, with its status |
| Requests.Close | app/services/relayflow.py:663-672 | One log entry, one callback exactly if nothing raised and there is an address, and as many slots given back as masks zeroed |
| Requests.CancelQueueTask | app/services/relayflow.py:709-748 | Reported canceled means CANCELED, also after whatever others did meanwhile; not canceled and no exception means missing or ended otherwise; it logs exactly if it canceled and never calls back |
| Requests.SubmitQueueTask | app/services/relayflow.py:785-901 | Leaves with an exception, hence is retried, exactly if a call raised or the upstream gave no definite answer; otherwise the gate was shut or the row is as the answer says; never publishes |
| Requests.Settle | app/services/relayflow.py:847-901 | After a rejection, a missing id or a terminal status the row is terminal, by its own verdict and with the upstream id recorded if its CAS won; after any other answer it is QUEUED or terminal and carries the upstream id |
| Requests.PassGate | app/services/relayflow.py:803-814 | Passes exactly for an active row that is not waiting or requeued and has no upstream id |
| Requests.RecordOrphan | app/services/relayflow.py:892-899 | The orphan upstream id is in the row |
| Requests.AcceptImmediate | app/services/relayflow.py:377-446 | Accepted exactly by its own message in the queue, with the 202 recorded, the row carrying the request's token and callback, one slot taken and one mask set; refused with as many of the handler's decrements as slots taken |
| Requests.AcceptBatched | app/services/relayflow.py:424-442 | Accepted only with the 202 recorded and a row with the request's token and callback whose due time is the deadline of its batch as the index had it at the join, answered to this actor; refused after its row was created it is out of the batch again, unless the leave raised |
| Requests.JoinBatch | app/services/relayflow.py:293-296 | The join answers with the deadline that the index holds for the batch |
| Requests.StoreRow | app/services/relayflow.py:382-427 | The created row is the request's: SUBMITTED, waiting exactly if batched and holding a slot exactly if not |
| TaskStore.TaskTable.Create | app/services/taskstore.py:65-96 | Inserts, or fails on an existing key and changes nothing |
| TaskStore.TaskTable.CasStatus | app/services/taskstore.py:124-170 | Row count 1 exactly if the status is among the start statuses; then status, times, progress, reason and merged data; otherwise nothing changes |
| TaskStore.TaskTable.Patched | app/services/taskstore.py:173-202 | Merges with no guard on the status |
| TaskStore.TaskTable.Claim | app/services/taskstore.py:392-426 | Wins exactly on SUBMITTED and waiting or requeued, and then writes releasing |
| TaskStore.TaskTable.Unclaim | app/services/taskstore.py:429-463 | Puts SUBMITTED and releasing back to waiting, and touches nothing else |
| TaskStore.TaskTable.ClaimSlot | app/services/taskstore.py:466-499 | Wins exactly on a positive or missing mask and zeroes it |
| TaskStore.BothUnitsReadAlike | app/services/taskstore.py:27-52 | An instant stored in seconds and in milliseconds reads back as the same second, in SQL and in Python alike, exactly once its millisecond form exceeds the threshold |
| TaskStore.ClaimIsGraced | app/services/taskstore.py:525-533 | A row just claimed is selected by the rescue query exactly from the end of the grace on, whatever its due time |
| TaskStore.OnlyOpenRows | app/services/taskstore.py:392-463 | Claim, un-claim and rescue query pass by tasks past SUBMITTED, rows outside the batches and released ones, and each by the batch states of the other |
| TaskStore.WaitIsGraced | app/services/taskstore.py:555-559 | A row that waits, for its batch or a retry, is selected exactly from its due time plus the grace on |
| TaskStore.JoinIsGraced | app/services/taskstore.py:555-559 | So is one just put into its batch |
| TaskStore.UnclaimUndoesClaim | app/services/taskstore.py:429-463 | The un-claim undoes the claim exactly for rows that were waiting; a requeued row comes back as waiting |
| RateLimit.SlotCounters.TryAcquire | app/redis.py:65-73 | Takes a slot exactly below the limit, and leaves every other counter alone |
| RateLimit.SlotCounters.Release | app/redis.py:75-79 | Decrements, never below 0; a raise changes nothing |
| RateLimit.RateWindow.CheckRate | app/redis.py:53-60 | Admits exactly if fewer than limit members are younger than a minute, and then adds its own |
| RateLimit.WindowBound | app/deps/ratelimit.py:13-20 | For non-decreasing request times and every instant, accepted requests of the last minute exceed the limit at most by those that repeat a member of an accepted one; with distinct members never |
| RateLimit.AcceptedExactly | app/redis.py:53-60 | A request is accepted if and only if fewer than limit members were accepted in the minute that ends with it; with distinct members, if and only if fewer than limit requests were |
| RateLimit.MembersBound | app/redis.py:53-60 | The members of the accepted requests of any minute never exceed the limit, repeats or not |
| RateLimit.CountTheMembers | app/redis.py:57 | Accepted requests are their members plus their repeats |
| RateLimit.ExpiryChangesNothing | app/redis.py:53-60 | The expiry of the key never changes a later decision |
| RateLimit.EqualDrawsPass | app/redis.py:57 | With equal members three requests pass a limit of two |
| RateLimit.NothingYoungIsLost | app/redis.py:53-60 | Pruning never removes an accepted request that still counts |
| BatchIndex.Index.Join | app/services/batching.py:296-333 | Returns the member count, the batch's real deadline and whether this call wrote it |
| BatchIndex.Index.Claim | app/services/batching.py:353-357 | Hands out all members, each once and in the order of their joins, and removes batch and deadline |
| BatchIndex.ZRange | app/redis.py:133 | All members, each once, by score |
| BatchIndex.Index.Leave | app/services/batching.py:336-350 | Removes the member and, with the last one, the deadline |
| BatchIndex.JoinEffect | app/redis.py:113-118 | A join adds its task to its batch and no other, and sets a deadline only on an empty batch |
| BatchIndex.ClaimEffect | app/redis.py:132-137 | A claim empties its batch and no other |
| BatchIndex.LeaveEffect | app/redis.py:148-155 | A leave takes out its task and no other, and the deadline with the last one |
| BatchIndex.NamesDiffer | app/redis.py:44-50 | Two grouping keys share a Redis key only if equal, and only the key due shares one with the deadlines |
| BatchHistory.IndexAlwaysOk | app/redis.py:113-155 | Over any history a batch has a deadline exactly while it has members |
| BatchHistory.MembersConserved | app/redis.py:113-155 | joined = handed out + left + still member, for every task and batch |
| BatchHistory.HandedOutAtMostOnce | app/redis.py:132-137 | A task id is handed out by a claim at most once per run |
| BatchHistory.EpochDeadline | app/redis.py:113-118 | From the join that opens a batch on, as long as it stays open, its deadline is the opener's |
| BatchHistory.JoinsOfAnEpoch | app/services/batching.py:296-333 | Every later join of an open batch finds the deadline of its opener, leaves it, and so returns it without having written it |
| BatchHistory.OpEffect | app/redis.py:113-155 | What each operation does to the members and the deadline of any batch |
| BatchHistory.ClaimedInJoinOrder | app/redis.py:133 | A claim hands out members in the order of their last joins |
| BatchHistory.ScoreEffect | app/redis.py:113-155 | What each operation does to the members and their scores: a join scores its time |
| BatchHistory.DeadlinesArePositive | app/services/batching.py:313-333 | A deadline is never 0, the value that stands for absent in the row |
| BatchHistory.ClaimOfDue | app/redis.py:44-50 | While another batch is open a claim keeps the index consistent if and only if its key is not due |
| BatchHistory.DueKeyIsReachable | app/services/batching.py:246-269 | The grouping key due can be named by a header or a model |
| Triggers.SizeTriggerWitness | app/services/relayflow.py:284-317 | When at least N members are there whose write did not raise, a size trigger is queued, or a claim is in flight, or a member is about to publish |
| Triggers.WitnessExactly | app/services/relayflow.py:284-317 | All members counted: over a run every batch of at least N members has a size trigger queued, a claim in flight or a member about to publish at all times, if and only if no full batch ever loses its last caller to a raised write or a cancellation |
| Triggers.WitnessStep | app/services/relayflow.py:308-317 | The same for one event |
| Triggers.NextKeepsCounting | app/services/relayflow.py:308-317 | The counting invariant behind it survives joiners that fail and leave or fail to, cancellations and claims |
| Triggers.LeaverCompletesTheBatch | app/services/relayflow.py:450-451 | Counting members whose write raised, the witness fails |
| Triggers.SwallowedLeaveStays | app/services/batching.py:346-350 | A leave whose failure is swallowed keeps the joiner a member and brings nobody |
| Triggers.OpenBatchHasItsTimer | app/services/relayflow.py:294-306 | An open batch has its T trigger scheduled, taken or about to be scheduled if and only if its opener's write of batch_due_at did not raise |
| Triggers.NextKeepsTiming | app/services/relayflow.py:294-306 | The timer invariant behind it is kept by every event |
| Triggers.OpenerLeavesTheBatchWithoutTimer | app/services/relayflow.py:450-451 | A run in which the opener fails and leaves an open batch without a timer |
| Triggers.JoinMatchesTheIndex | app/services/batching.py:296-333 | The joins of the trigger machine are the joins of the batch index |
| Batching.EffectivePlan | app/services/batching.py:200-243 | An enabled plan has size at least 2, waits between 1 and the bound, has a white-listed key and a deadline exactly its wait in the future |
| Batching.RejectionIgnoresTheSwitch | app/services/batching.py:162-228 | A request is rejected exactly for bad headers, alike with batching switched on and off |
| Batching.RejectionNamesTheFault | app/services/batching.py:142-189 | The rejection's code and header name the first header at fault, and which fault |
| Batching.HeadersWin | app/services/batching.py:225-243 | Valid headers win field by field over the settings, and every field without one comes from the settings; the switch and the minimum size decide whether to batch at all, and a missing wait falls back to the bound |
| Batching.SanitizeIsIdempotent | app/services/batching.py:157-159 | Grouping keys stay on the white list, and sanitising twice is sanitising once |
| Batching.SanitizeKeepsWhatIsSafe | app/services/batching.py:157-159 | Safe keys are kept as they are, and of others the first 64 characters between the blanks, with an underscore for each foreign one |
| Batching.ModelsGroupByName | app/services/batching.py:263-269 | Grouped by model, the token, case and blanks do not matter, and a safe model name is its own key |
| Batching.TokenModelKeys | app/services/batching.py:264-268 | Grouped by token, the key spells out fingerprint and model |
| Batching.KeySpellingDoesNotSplitABatch | app/services/batching.py:246-260 | Keys that sanitise alike give the same plan |
| Batching.TokensDoNotShareABatch | app/services/batching.py:264-268 | Grouped by token, tokens with different fingerprints never share a batch |
| Batching.DelayBounds | app/services/batching.py:421-425 | The retry delay is its base moved by the drawn jitter, in whole seconds, so within ten percent of the base |
| Batching.BaseBounds | app/services/batching.py:421-424 | The base never shrinks from one attempt to the next nor exceeds the ceiling |
| Batching.BaseShape | app/services/batching.py:421-424 | The base starts at two seconds and doubles with every attempt up to the twelfth or up to the ceiling, which is at least ten seconds; there it stays |
| Idem.IdemKey.SetTaskId | app/services/idem.py:75-78 | For its whole time to live every reader then finds the task id, and afterwards nothing |
| Idem.IdemKey.Place | app/services/idem.py:53-55 | Owns exactly a key that is absent or expired, and then holds the placeholder |
| Idem.IdemKey.TaskIdAt | app/services/idem.py:34-39 | The task id while it lives, and none for a placeholder |
| Idem.IdemKey.Release | app/services/idem.py:81-84 | Afterwards no reader finds the placeholder, and readers of a task id find it as before |
| Idem.WaitTaskId | app/services/idem.py:58-72 | Returns the first filled value seen before the deadline, and none if the placeholder vanished or time ran out first |
| Idem.AtMostOneRow | app/services/relayflow.py:424-454 | While the key is never retaken: at most one row per key, at most one owner on its way to one, and every answer names that row |
| Idem.ReplayIsAnswered | app/services/idem.py:53-55 | A request that arrives while the key holds a task id, and as long as it does, takes two statements and is then answered with this id, whatever others do between them |
| Idem.NoEarlyConflict | app/services/idem.py:64-72 | A request is refused with 409 only if it found the key absent while waiting or has waited its whole time |
| Idem.WaitIsBounded | app/services/idem.py:64-72 | A waiting request waits no longer than its time |
| Idem.WaiterLooks | app/services/idem.py:65-71 | Each look of a waiting request answers it with the id found, refuses it for an absent key or at the end of its time, or leaves it waiting |
| Idem.OneRowExactly | app/services/relayflow.py:424-454 | Over any run, whatever expires, raises or crashes, there is never more than one row nor an owner that could still create a second one, if and only if SET NX never succeeds while there is a row or another owner on its way |
| Idem.CalmStep | app/services/idem.py:53-55 | One event keeps that so if and only if it does not retake the key |
| Idem.SafeIsCalm | app/services/relayflow.py:424-430 | No continuation by creations has two rows exactly if there is at most one row and nobody left to create a second |
| Idem.DisciplineSuffices | app/services/relayflow.py:424-454 | Creation within the placeholder's time, a run within the task id's, and no failure between row and back-fill are enough |
| Idem.NextKeepsInv | app/services/relayflow.py:137-166 | Every disciplined event keeps this, and the key moves only absent, pending, task id or back to absent |
| Idem.OwnersWonTheKey | app/services/idem.py:42-55 | Only a request that won SET NX on an absent key comes to create a row |
| Idem.ReleaseSparesFilled | app/redis.py:82-87 | Releasing never deletes a filled key |
| Idem.SlowOwnerDuplicates | app/services/relayflow.py:424-430 | Two rows when creation outlives the placeholder |
| Idem.ExpiredKeyDuplicates | app/services/idem.py:75-78 | Two rows when a retry comes after the task id has expired |
| Idem.FailedBackFillDuplicates | app/services/relayflow.py:428-453 | Two rows when the back-fill raises |
| Idem.StaleReleaseFreesTheKey | app/services/idem.py:81-84 | An owner that outlived its placeholder deletes the placeholder of another |
| Queue.RunsPerLife | app/queue.py:169-182 | A publication or replay is started at most event_max_attempts times and is dead exactly after that many failures, no sooner than all its retry delays together; a retry is due exactly its delay after the failure |
| Queue.ExactlyOnePlace | app/queue.py:186-209 | Without a crash, and as long as every failure can be scheduled or put to the dead letters, every job ever published is in exactly one of pending, delayed, running, finished or dead, the letter being replayed aside |
| Queue.ReplayNeverLoses | app/queue.py:347-361 | As long as no worker crashes and every failure can be scheduled or put to the dead letters, no job is lost, wherever replays are interrupted |
| Queue.InterruptedReplayDoubles | app/queue.py:357-358 | A replay interrupted between its two calls leaves the job in two places |
| Queue.NextKeepsLives | app/queue.py:169-182 | The label counts the failed runs, through every event |
| Queue.BackoffShape | app/queue.py:165-166 | Delays double from 2 s on until 300 s and stay there |
| Queue.WaitsInClosedForm | app/queue.py:165-166 | Up to the eighth retry the delays add up to 2^(n+1) - 2 seconds |
| Queue.DeadLetters.ReplayDlq | app/queue.py:347-361 | Deals with the oldest letters, as many as the limit and the stream allow: enqueues the known ones in order, leaves the others and the rest of the stream, and counts what it replayed |
| Queue.DeadLetters.InterruptedReplay | app/queue.py:356-358 | Stopped between kiq and xdel: this letter is in both places, earlier ones are replayed, later ones still there |
| Queue.ReplaySplits | app/queue.py:351-359 | Each of the letters is either enqueued with its arguments and no attempts or left, and nothing else is |
| Queue.OneEntry | app/queue.py:351-359 | One turn of the loop removes exactly its own letter |
| Upstream.Breaker.Guard | app/services/upstream.py:21-31 | Refuses from the threshold on, never without a failure on record |
| Upstream.Breaker.Report | app/services/upstream.py:34-43 | A success deletes the counter, a failure raises it and renews its time to live; other hosts are untouched |
| Upstream.CounterIsTheStreak | app/services/upstream.py:34-43 | After any reports to any hosts the counter is at least k exactly if the host's own last k reports failed with gaps below the window |
| Upstream.RefusesAfterStreak | app/services/upstream.py:21-31 | The guard refuses exactly after a streak as long as the threshold |
| Upstream.OpenForOneWindow | app/services/upstream.py:21-43 | Once open and with no further report to this host it stays open until exactly last failure plus window |
| Upstream.HostsAreSeparate | app/services/upstream.py:34-43 | A host's counter depends on its own reports alone |
| SweepLock.Lock.Enter | app/services/relayflow.py:980-986 | Takes the lock exactly if it is not held by a live key |
| SweepLock.Lock.Exit | app/redis.py:82-87 | Removes the key only under its own guard |
| SweepLock.OneRoundAtATime | app/services/relayflow.py:980-998 | At most one round is in its body while its time to live lasts |
| SweepLock.LockLastsItsTime | app/services/relayflow.py:980-998 | A round keeps its lock until it exits or its time is over, whatever other rounds do |
| SweepLock.OverrunSparesTheNext | app/services/relayflow.py:994-998 | A round that overran exits without removing a later round's lock |
| SweepLock.OverrunOverlaps | app/services/relayflow.py:980-986 | A round that needs longer than the time to live overlaps the next |
| SweepLock.OneBodyExactly | app/services/relayflow.py:980-998 | Over a run at most one round is ever in its body if and only if no round takes the lock while one that has overrun its time is still in its body |
| SweepLock.OneBodyStep | app/services/relayflow.py:980-986 | The same for one event, and whoever is overtaken has overrun |
| NativeApi.RoundTripExactly | app/services/nativeapi.py:49-58 | Rewriting upstream ids to a local id and back gives the original bytes if and only if no stretch between upstream ids contains the local id |
| NativeApi.NoStraddling | app/services/nativeapi.py:49-58 | An occurrence of the local id never straddles a planted one |
| NativeApi.ChangedIffOccurs | app/services/nativeapi.py:56-58 | Replacement changes a body exactly if the pattern occurs in it |
| NativeApi.JoinReplaced | app/services/nativeapi.py:56-58 | The rewritten body is the untouched stretches joined by the new id |
| NativeApi.PlantedAreFound | app/services/nativeapi.py:49-58 | Rewriting back finds exactly the planted ids |
| Ids.RewriteRoundTrip | app/services/nativeapi.py:49-58 | For every body and upstream id the round trip through a queue id is the identity if the queue id does not occur in the body |
| Ids.QueueIdsAreMarked | app/services/ids.py:21-29 | The first letter of a queue id occurs in it once |
| Ids.GeneratedIdsAreLocal | app/services/nativeapi.py:21-31 | Every generated id is recognised as local, and has at most 53 characters |
| Ids.LocalIdsExactly | app/services/nativeapi.py:21-31 | Recognised are exactly one to twenty slug characters, an underscore and 32 hex digits, and the same with a newline behind |
| Ids.RunsBecomeOneDash | app/services/ids.py:28 | A run of foreign characters becomes one dash, whatever its length |
| Ids.SlugIsClean | app/services/ids.py:28 | Slugs are clean, and a clean prefix is its own slug |
| Ids.IdsAreInjective | app/services/ids.py:21-29 | Ids are equal if and only if their digits and their stems are |

## Left out

- Routes, HTTP clients, streaming, logging, the admin page, JSON parsing, signatures, URL and address admission: no logic of the protocol. An upstream answer is unreachable or 5xx, rejected, without id, or accepted with any mapped status but SUBMITTED.
- A call that raises is taken to have had no effect; a call that took effect and then raised is not distinguished from a crash after it.
- The token sessions, the status log's contents, `upstream_status`, snapshots and the upstream DELETE of a cancellation: they do not feed back into the protocol. A missing session ends a submission like a gate that does not pass.
- The release section ends with the last write on the row; the message of a delayed retry sent after it is not a step, since a release trigger may appear at any time anyway. Its failing is left to the rescue.
- Expiry of counter keys, of the batch member set and hot changes of the limit: the limit is fixed and these keys do not expire.
- In the protocol an idempotency key, once filled, never expires, and a request without a key is one that nobody replays; module Idem has the key's own life.
- An acknowledged row whose releaser crashes after writing `released` and before publishing is not rescued by the code, and `NoSilentStall` says so by listing `released`.
- At-most-once upstream calls: two deliveries of one submit message may both submit; only publication by the release path is at most once.
- A timer message carries the key alone and may release a later batch of the same key early; nothing is claimed against that.
- ORDER BY and LIMIT of the rescue query, and the order of members with equal scores in ZRANGE: such candidates and members come in any order.
- `batching.release` runs its members concurrently behind a semaphore; the method here runs them one after the other, with any interleaving of others at every awaited call.
- Relay.World.ReleaseBatchedTask: the process's own crash is not a step of the method; the machine has it as an event.
- Requests.AcceptBatched: what others have made of the batch index by the time of the join, and of the leave, are two arbitrary stores with positive deadlines; its effects on the triggers are in module Triggers.
- Requests.CancelQueueTask: leaving the batch is in module Triggers only, and a cancelled row without a grouping key does not leave.
- Triggers.SizeTriggerWitness: all joiners of a key ask for the same size, no publication fails and nobody crashes; what is lost then is the rescue's. What is lost includes a trigger whose claim raises, since a batch release is not retried. Members whose write raised are not counted, even if they fail to leave; `Triggers.WitnessExactly` counts them.
- The sweep of probes is modelled as probe actors that may start at any time; fairness is not claimed, since rows probed without progress keep their old `updated_at`.
- Queue.ExactlyOnePlace: one replay at a time, and the order of messages in the list is not kept.
- The FIFO order of the queue, the scheduler's polling interval and the observability of queue and batches.
- Batching.TokensDoNotShareABatch: lower-casing is ASCII only.
- Ids.GeneratedIdsAreLocal: lower-casing of the prefix is ASCII only; other letters become dashes either way unless their lower case is ASCII.
- NativeApi.RoundTripExactly: ids are given by their UTF-8 form, and the surrounding JSON encoding is not modelled.
