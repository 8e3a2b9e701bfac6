# abacus, verified

abacus runs long computations for chat sessions. A job is a row in Postgres; RabbitMQ only carries its id to a worker,
which takes a lease on the row (a token and a deadline), renews it while a child process computes, and reports under
that token. A session's messages and its jobs' transitions share one sequence of numbers, which a reconnecting client
uses to catch up, and replies are streamed over websockets that drop a reader who falls behind.

Nearly every promise the code makes spans two stores or two processes that see each other late: the broker and the
row, a worker's copy of its deadline and the row's, the stored artifact and the column that names it, the frames sent
and the frames delivered. This project models those pairs and proves the promises.

| file | what it models |
|---|---|
| `Basics`, `Jobs`, `Artifacts` | values: uuids, jobs, leases, rows, the predicates and `values` of each statement, artifact keys |
| `JobTable`, `JobStore` | the `jobs` table as a transition system, and the store that updates it and the event log in place |
| `SessionLog`, `SessionTransactions`, `Tables` | one session's log and its bounded merge, open transactions behind row locks, the whole committed database |
| `Broker`, `LateMarks` | rows, messages with ready times, unacked deliveries and half-done dual writes, interleaved step by step; the runs in which a late mark loses a job |
| `Deliveries`, `Damper`, `JobQueue`, `QueueRuns` | one consumer's deliveries, the republish damper, the queue object built on both, and its calls as runs of `Broker` |
| `Execution`, `Supervisor`, `Reports` | any number of supervisors over rows and objects, one supervisor as code, and the second as runs of the first |
| `QueueMachine`, `MemoryQueue` | an abstract job machine, and the in-memory reference queue refining it |
| `Frames`, `Connection` | server frames, and one socket behind its bounded queue and single writer |
| `ChatRepository` | the chat tables, updated in place |
| `ChatTurns`, `ChatKeys`, `ChatStreams`, `ChatAnswers`, `ChatOutcomes` | all connections of all sessions interleaved, and what holds of keys, of streams, of resends, and of a reply's row |
| `ChatWeave`, `ChatHandler` | one task among the others, and the handler as code |

## How it is put together

Code that changes state is a class whose fields are updated in place: `Database` and `PostgresJobStore`,
`RabbitMQJobQueue`, `MemoryJobQueue`, `PostgresChatRepository`, `Connection`, `ObjectStore`, `Supervisor`,
`ConnectionHandler`. Their methods are proved against operations on values (`JobTable.After`, `Tables.After`,
`Deliveries.After`, `Connection.After`, `ChatTurns.After`), and the laws are proved of all runs of those operations.
Where one method spans several atomic steps, it is shown to be a run of the interleaving machine: the calls of
`RabbitMQJobQueue`, through `QueueRuns`, of `Broker`; a lease from its claim to its report, through
`Reports.LeaseIsARun`, of `Execution`; and `StartTurn`, `RunTurn`, `TurnFinished` and `Dispatch` of `ChatTurns`, with
the rest of the chat moving at every await (`ChatWeave.Gap`).

Interleaving is modelled at the source's own await points. In `Broker` a commit, the publish after it and the mark
after that are three steps, and a process may stop between any two. In `Execution` a statement, its answer, an
upload and its answer are separate events that may come late or never. In `ChatTurns` every database call of every
turn and read loop is a step, and one that fails may still have landed.

What other processes do between two calls of one method is a parameter too: statements that land between two tries of
`reserve`, between the calls of a maintenance pass (`JobQueue.Meantime`), or while the child runs (`Supervisor.Shift`).

The clock is one integer, monotone, shared by workers and database. Failing calls are parameters (`Fault`): a call
answers, never arrives, or lands and loses its answer; `JobQueue.PassCalls` lists those of a maintenance pass.

## Where the code falls short of a stated promise

- **A late mark can lose a job.** `mark_published` (adapters/postgres/job_store.py:186-200) is not fenced. A producer
  that publishes and is slow to mark can mark a row that has since been claimed, failed and made unpublished again;
  if the retry was not published by then, no sweep will find the job. `LateMarks.ALateMarkLosesAJob` is that run. The
  exact condition is the fence the statement lacks: when a mark lands on an unpublished waiting row, the row must
  have the number of attempts it had when the publish was decided, or a message must cover the job anyway. Over whole
  runs a job is safe throughout if and only if each of its own marks met that condition
  (`Broker.NoJobIsLostExactlyWhen`), other jobs' marks do not matter, and no weaker fence would do, for any row
  (`LateMarks.FenceIsNeeded`) and in real runs (`LateMarks.FenceIsNeededInRuns`). Nothing but a cancel ever moves a
  lost job (`Broker.LostForever`), and every unfinished job that is not lost can still move
  (`Broker.JobCanMoveExactlyWhen`).
- **A claim that raises leaks its delivery**, and so does a second claim on a job whose first delivery is still held
  (adapters/rabbitmq/job_queue.py:261 and 270). `Deliveries.ConservesExactlyWhen` says that a step conserves the
  deliveries exactly when it is neither. `Deliveries.OverwriteNeedsTwo` shows that the second needs two unacked
  deliveries, so it is impossible at a prefetch of one; `Deliveries.TwoSlotsLeak` is a run at two that does it.
- **A cancelled job keeps the consumer's error text.** core/jobs.py:266-269 says a cancelled job is not reported as a
  failure; `nack` does make it `cancelled`, but writes the caller's `error` into the row all the same
  (adapters/postgres/job_store.py:455-461). `JobTable.ACancelledJobCarriesAnError` is a run that does so, and
  `JobTable.ErrorExactlyWhen` the exact condition over all runs: a row has an error text if and only if a return of
  the job landed under its live token or the job is dead, so a cancelled job has one exactly in the first case.
- **A heartbeat needs a positive period**, which construction does not check (worker/config.py:44-56). With a period
  of zero or less every timed renewal is cut off before it starts and none is ever heard. What that means is a clause
  of `Supervisor.Supervise`: the lease stays the claim's, and the job ends because the child finished, the worker
  stopped, the cap passed or the lease ran out, the last two within one turn of the loop.
- **A resend does not always get its reply.** core/chat_handler.py:204-215 tells the client that resending is safe
  however far the first attempt got. It is safe for the message, which is stored once; but the key may be taken with
  nobody left to answer it. Three calls do that: opening the reply raises without landing, opening it raises after it
  landed, and recording the message raises after it landed (`ChatAnswers.AFailedOpeningLosesTheReply`,
  `ChatAnswers.AnUnheardRecordingLosesTheReply`, each a run with its resend). From any reachable state, a later
  acknowledgement of a key names a reply if and only if the key is free and any turn may run, or some connection is on
  its way to its reply, or a turn of it is running on a connection that may run more than one
  (`ChatAnswers.CanBeNamedExactlyWhen`); at a cap of one the running turn itself keeps a resend from being read.
  After an error, that is so exactly when a recording failed and either did not land or found the key stored and still
  answerable (`ChatAnswers.AResendIsAnsweredExactlyWhen`). An opening that landed unheard leaves its row streaming and
  empty for ever (`ChatAnswers.AnUnheardReplyStaysEmpty`).
- **The lapse boundary differs.** The store lapses a lease just after its deadline (adapters/postgres/job_store.py:89),
  the in-memory queue at it (tests/MemoryJobQueue.py:174 and 213), and they differ on an empty error text at retirement.
  `QueueMachine.Step` allows both.

## Model

| member | source | states |
|---|---|---|
| Artifacts.UuidRoundTrip | core/artifacts.py:29-44 | the text of a uuid determines it, so a key or message body names one job |
| Artifacts.ArtifactKeyInjective | core/artifacts.py:29-44 | two attempts have the same key if and only if they are the same attempt at the same job |
| Artifacts.AttemptsShareAPrefix | core/artifacts.py:29-44 | a key begins with a job's prefix if and only if it is the key of an attempt at that job |
| JobTable.RowAfterKeepsInv | adapters/postgres/job_store.py:134-471 | every statement keeps the row invariant: a lease exactly when running, attempts within the budget, a waiting row has attempts left, a cancel flag only on running, cancelled or done rows |
| JobTable.AfterKeepsInv | adapters/postgres/job_store.py:134-471 | every statement keeps the whole table in order, with no two rows under one idempotency key |
| JobTable.ReachableTable | adapters/postgres/job_store.py:69-92 | every row of every reachable table satisfies the row invariant |
| JobTable.RunIsMonotone | adapters/postgres/job_store.py:207-294 | over any run attempts never decrease, a cancel flag stays and stops further claims, and a terminal row changes in nothing but its mark |
| JobTable.CancelIsNeverAFailure | adapters/postgres/job_store.py:73-92 | in every reachable table a job asked to cancel is running, cancelled or done, and no claim takes it at any time |
| JobTable.LapsedIsPickedOnce | adapters/postgres/job_store.py:296-366 | a running row past its deadline is selected by exactly one of the two maintenance queries, and by neither before |
| JobTable.ErrorExactlyWhen | adapters/postgres/job_store.py:430-471 | over every run from the empty table a row carries an error text if and only if some return of the job landed under its live token, or the job is dead |
| JobTable.ACancelledJobCarriesAnError | adapters/postgres/job_store.py:455-461 | the input: enqueued, claimed, cancelled while running and then returned, a job ends cancelled with the returning consumer's error text |
| JobStore.Database.AllocateSeq | adapters/postgres/seq.py:22-52 | returns the session's next number and moves that counter alone; an unknown session raises and changes nothing |
| JobStore.PostgresJobStore.RecordEvent | adapters/postgres/job_store.py:477-506 | numbers one transition in its job's session: the event carries the next number, the job and its state, and the counter moves on by one; a job without a session writes nothing |
| JobStore.PostgresJobStore.InsertOrGet | adapters/postgres/job_store.py:134-184 | creates the row and its event in one transaction, or returns the job the key already made, or raises; each case with the condition under which it happens and the unchanged state where nothing is written |
| JobStore.PostgresJobStore.MarkPublished | adapters/postgres/job_store.py:186-200 | marks that one row, whatever has become of it since, and records no event |
| JobStore.PostgresJobStore.Cancel | adapters/postgres/job_store.py:207-247 | is the cancel transaction: a waiting job is cancelled and recorded, a running one only flagged, a terminal one left alone; answers with the job as it now is |
| JobStore.PostgresJobStore.Claim | adapters/postgres/job_store.py:253-294 | claims exactly when the row is waiting and due, or running past its deadline with attempts left and no cancel asked; counts an attempt, records it, and answers with the row's own job; otherwise changes nothing |
| JobStore.PostgresJobStore.LapsedReservable | adapters/postgres/job_store.py:296-313 | lists exactly the lapsed rows a claim may take, each once |
| JobStore.PostgresJobStore.RetireLapsed | adapters/postgres/job_store.py:315-366 | finishes exactly the rows past their deadline that are out of attempts or asked to cancel, each as cancelled or as dead with its error, leaves every other row alone, and records each in its session's log in the same transaction |
| JobStore.PostgresJobStore.RecordEvents | adapters/postgres/job_store.py:355-366 | the loop numbers every listed row in turn |
| JobStore.PostgresJobStore.Unpublished | adapters/postgres/job_store.py:368-387 | lists exactly the queued and failed rows with no mark that fell due more than `older_than` ago, each once |
| JobStore.PostgresJobStore.Extend | adapters/postgres/job_store.py:393-410 | renews exactly when the row still carries the token, and answers with the row's own job, so a raised cancel flag is seen |
| JobStore.PostgresJobStore.Ack | adapters/postgres/job_store.py:412-428 | finishes and records exactly when the row still carries the token; a stale lease changes nothing |
| JobStore.PostgresJobStore.Nack | adapters/postgres/job_store.py:430-471 | returns, kills or cancels the job by the row's own flag and count, exactly when the row still carries the token, and takes the mark off a job that goes round again; answers with what it became |
| JobStore.PostgresJobStore.Meanwhile | adapters/postgres/job_store.py:134-471 | any statements of other processes, for jobs of existing sessions, landing one after another between two of this process's own |
| SessionLog.AppendKeepsGapFree | adapters/postgres/seq.py:22-52 | a row under the next number, in either table, leaves the two together gap-free |
| SessionLog.CutEachSide | adapters/postgres/chat_repository.py:153-182 | cutting both inputs of a merge at the limit and the merge again loses nothing: the result is the merge cut once |
| SessionLog.SinceOfMerge | adapters/postgres/chat_repository.py:186-223 | taking both tables past a cursor and merging is merging and then taking past the cursor |
| SessionLog.LogIsNumbered | adapters/postgres/chat_repository.py:153-182 | the merged log of a gap-free session is numbered 1, 2, 3, and so on up to the counter |
| SessionLog.LogHoldsBothTables | adapters/postgres/chat_repository.py:153-182 | an entry is in the merged log if and only if it is a message row or a job event of the session, as stored |
| SessionLog.BoundedMergeIsExact | adapters/postgres/chat_repository.py:153-223 | for every cursor and limit the repository's answer is the first `limit` entries of the whole log after the cursor, numbered on from it, and there are as many as that allows |
| SessionTransactions.AfterKeepsInv | adapters/postgres/seq.py:22-52 | every step of every open transaction keeps committed logs and drafts gap-free and each counter's row lock exclusive |
| SessionTransactions.LogHasNoGaps | adapters/postgres/seq.py:22-52 | after any interleaving of committed and rolled-back transactions a session's two tables hold exactly the numbers below its counter, each once |
| SessionTransactions.CommitOrderIsNumberOrder | adapters/postgres/seq.py:22-52 | a number new in a later snapshot exceeds every number an earlier one held, and a snapshot that holds n holds everything below n |
| SessionTransactions.RowsAreAsInserted | adapters/postgres/chat_repository.py:86-151 | over every interleaving: a committed message is one that some transaction of the run inserted into that session, with that identity, role and key, and its status and text are as inserted or the message was finished afterwards |
| Tables.StepExtendsReplay | adapters/postgres/job_store.py:477-506 | a statement that moves a row extends its recorded path by one legal transition, and one that does not move it records nothing |
| Tables.JobStepKeepsInv | adapters/postgres/job_store.py:134-506 | every job statement, with the events it records, keeps all stories and all logs true |
| Tables.ChatStepKeepsInv | adapters/postgres/chat_repository.py:73-151 | every chat statement leaves all job stories true and all logs gap-free |
| Tables.EventsReplayToTheRow | adapters/postgres/job_store.py:477-506 | in every reachable database a job's events form a legal path from queued to the row's state, with one running event an attempt, nothing after a terminal event, and at most 2 * max_attempts + 1 in all |
| Tables.SessionsStayGapFree | adapters/postgres/chat_repository.py:86-145 | jobs and messages together never tear a gap in a session's log |
| Broker.CoverStays | adapters/rabbitmq/job_queue.py:252-271 | in every reachable system, whatever became of other jobs, a live message of a waiting job survives every step: only held deliveries and refused ones are settled |
| Broker.StepKeepsInv | adapters/rabbitmq/job_queue.py:225-432 | every step, a late mark included, keeps the table, the ready times and the half-done dual writes in order |
| Broker.StepKeepsSafe | adapters/rabbitmq/job_queue.py:225-432 | a step keeps a safe job safe if and only if it is not a mark of that very job, or it meets the fence, or another message covers the job |
| Broker.NoJobIsLost | adapters/rabbitmq/job_queue.py:225-432 | in every run in which no mark of this job does harm, whatever marks of other jobs do, the unfinished job is running under a lease, or waiting unpublished, or waiting with an unsettled message due no earlier than the job |
| Broker.NoJobIsLostExactlyWhen | adapters/rabbitmq/job_queue.py:225-432 | for every run and every job: the job is safe in every state of the run if and only if each of its own marks met the fence or found the job covered when it landed |
| Broker.MarkIsSafeExactlyWhen | adapters/postgres/job_store.py:186-200 | for a safe job, whatever became of the others: its mark keeps it safe if and only if no attempt has been made on a still unpublished row since the publish, or another message covers the job |
| LateMarks.FenceIsNeeded | adapters/postgres/job_store.py:186-200 | the fence cannot be weakened: for every unpublished waiting row with more attempts than the publish knew of there is a system in order in which that mark is possible and loses the job |
| LateMarks.FenceIsNeededInRuns | adapters/postgres/job_store.py:186-200 | for every number of attempts and every earlier one, under every budget above it, a run from the empty system reaches a state in which a mark decided at the earlier number is still outstanding, and its landing loses the job |
| LateMarks.ALateMarkLosesAJob | adapters/postgres/job_store.py:186-200 | a run of eight steps, each enabled, after which a queued job has neither message nor sweep to find it |
| Broker.LostForever | adapters/postgres/job_store.py:368-387 | a job in that condition never moves again, over any run without a cancel of it |
| Broker.UnlostJobCanMove | adapters/rabbitmq/job_queue.py:252-432 | from every system in order, an explicit run of the system's own steps takes an unfinished job that is not lost to a new attempt or a terminal state |
| Broker.JobCanMoveExactlyWhen | adapters/rabbitmq/job_queue.py:252-432 | in every reachable system, late marks or not, an unfinished job has a continuation without a cancel that moves it if and only if it is not lost |
| Broker.UnharmedJobCanMove | adapters/rabbitmq/job_queue.py:225-432 | in every run in which no mark of this job does harm, the unfinished job can still be attempted again or finished |
| Deliveries.ConservesExactlyWhen | adapters/rabbitmq/job_queue.py:252-271 | a step keeps every unacked delivery in exactly one place if and only if it is neither a raising claim nor an overwriting one |
| Deliveries.OverwriteNeedsTwo | adapters/rabbitmq/job_queue.py:270 | overwriting a held delivery needs two unacked at once |
| Deliveries.OneSlot | adapters/rabbitmq/job_queue.py:252-358 | at a prefetch of one, if every claim returns, there is at most one unacked delivery, always in exactly one place, and none is settled twice |
| Deliveries.TwoSlotsLeak | adapters/rabbitmq/job_queue.py:262-270 | a run at a prefetch of two, each step enabled, in which a duplicate is claimed while the first delivery is held: the first then stays unacked with nobody to settle it, and conservation fails |
| Damper.PruningIsInvisible | adapters/rabbitmq/job_queue.py:406-432 | over every run of passes, complete or abandoned, pruning the memory yields the publications of never pruning it |
| Damper.NeverTwiceWithinQuiet | adapters/rabbitmq/job_queue.py:77 | one process never republishes a job twice within four maintenance intervals |
| Damper.PublishedExactlyWhenQuiet | adapters/rabbitmq/job_queue.py:412-424 | the damper damps nothing else: in every run of passes, complete or abandoned, a pass publishes a lapsed job it comes to if and only if the process published it in none of the last four intervals |
| Damper.NotedIsLatest | adapters/rabbitmq/job_queue.py:416-424 | a pass remembers each job it comes to as of now, unless it was published too lately, and touches the memory of no other |
| JobQueue.FirstClaimable | adapters/rabbitmq/job_queue.py:252-271 | the first delivery whose row can be claimed at its turn, with other processes' statements landing between the tries: every earlier one cannot |
| JobQueue.RabbitMQJobQueue.Publish | adapters/rabbitmq/job_queue.py:364-383 | one message, due now or after the delay if it is positive |
| JobQueue.RabbitMQJobQueue.OnDelivery | adapters/rabbitmq/job_queue.py:292-303 | a delivery joins the waiting ones, unacked |
| JobQueue.RabbitMQJobQueue.Release | adapters/rabbitmq/job_queue.py:434-448 | settles the one delivery held for the job, if any, and, when guarded, only if held for that very lease; otherwise nothing moves |
| JobQueue.RabbitMQJobQueue.Enqueue | adapters/rabbitmq/job_queue.py:225-234 | row, then message, then mark: wherever it stops, a created job is unpublished or on the wire, and marked exactly when the mark could land; a repeated key publishes nothing |
| JobQueue.RabbitMQJobQueue.TryNext | adapters/rabbitmq/job_queue.py:258-271 | a refused delivery is settled and moves no row; a claimed one is held behind its new lease |
| JobQueue.RabbitMQJobQueue.Reserve | adapters/rabbitmq/job_queue.py:252-290 | for all deliveries waiting or arriving before the deadline and all statements landing between the tries: refuses exactly those ahead of the first claimable one, in order, and claims that one from the row as it then is, or refuses all and claims nothing |
| JobQueue.RabbitMQJobQueue.Extend | adapters/rabbitmq/job_queue.py:305-313 | the store's renewal, with the delivery untouched |
| JobQueue.RabbitMQJobQueue.Ack | adapters/rabbitmq/job_queue.py:315-331 | the row hears the ack unless the call never arrived, and the delivery is let go either way |
| JobQueue.RabbitMQJobQueue.Nack | adapters/rabbitmq/job_queue.py:333-347 | the row hears the nack unless the call never arrived; a job not cancelled and with attempts left is published once, behind its backoff, and then marked, and no other is; the delivery is let go either way |
| JobQueue.RabbitMQJobQueue.Discard | adapters/rabbitmq/job_queue.py:349-358 | lets go of this lease's delivery and of no newer lease's |
| JobQueue.RabbitMQJobQueue.Offer | adapters/rabbitmq/job_queue.py:225-234 | a publish and then its mark: the message is on the wire unless the publish never arrived, and the row is marked only after a publish that answered |
| JobQueue.RabbitMQJobQueue.OfferLapsed | adapters/rabbitmq/job_queue.py:412-424 | for every pattern of failing publishes: lets go of each lapsed job's delivery up to the first failure; before it, a job not republished within four intervals gets exactly one message, due at once, and is remembered as of now, and any other gets none and keeps its memory |
| JobQueue.OffersOnTheWire | adapters/rabbitmq/job_queue.py:412-424 | message by message: a pass over the lapsed jobs publishes one, due now, for each that was not republished within the quiet time, and nothing else |
| JobQueue.RabbitMQJobQueue.PublishOrphans | adapters/rabbitmq/job_queue.py:425-427 | for every pattern of failing calls and whatever others do to the table beside it: publishes the orphans in turn up to the first failure and marks those whose publish answered, each as of when it was marked |
| JobQueue.RabbitMQJobQueue.Sweep | adapters/rabbitmq/job_queue.py:406-432 | one pass, whichever of its calls raise and whatever others run between them: the table has been through exactly its own statements and theirs in the order they ran, each list holds exactly the rows due when it was asked for, each lapsed job it came to that was not republished within four intervals gets one message and is remembered as of now, each orphan it came to gets one, and nothing else is published |
| QueueRuns.ArrivalIsAStep | adapters/rabbitmq/job_queue.py:292-303 | a delivery that reaches a channel is a step of the interleaved system that keeps the channel mirrored in it |
| QueueRuns.TryIsAStep | adapters/rabbitmq/job_queue.py:258-271 | one try of `reserve` is a step of the interleaved system: the claim's statement on the row, and the delivery held, or settled, on both sides alike |
| QueueRuns.LetGoIsAStep | adapters/rabbitmq/job_queue.py:434-448 | a release, guarded or not, settles in the system exactly the delivery it settles on the channel, or none |
| QueueRuns.EnqueueIsARun | adapters/rabbitmq/job_queue.py:225-234 | for every way its broker calls fail, the rows and messages an `enqueue` leaves are those of a run of the system, with no dual write left half done |
| QueueRuns.AckIsARun | adapters/rabbitmq/job_queue.py:315-331 | for every way the call fails, an `ack` with its release is a run of the system |
| QueueRuns.NackIsARun | adapters/rabbitmq/job_queue.py:333-347 | for every way its three calls fail, a `nack` with its release, its republication and its mark is a run of the system |
| QueueRuns.LapsedIsARun | adapters/rabbitmq/job_queue.py:412-424 | a lapsed job let go of and offered again, or not, is a run of the system that leaves the row alone |
| QueueRuns.OrphanIsARun | adapters/rabbitmq/job_queue.py:425-427 | an orphan found, published and marked, or as much of that as lands, is a run of the system |
| Execution.StepKeepsInv | worker/supervisor.py:206-442 | every event of every supervisor keeps leases honest, outputs in place and results owned |
| Execution.CopyIsHonest | worker/supervisor.py:273-299 | while a supervisor's copy of its lease is unexpired and unreported the row carries its token with a deadline no earlier, even when renewals time out and land late |
| Execution.EveryDeadlineIsHonest | worker/supervisor.py:273-299 | every deadline ever granted to an attempt, by its claim or by any renewal sent, whether or not its answer was heard: until it passes or the attempt reports, the row carries that token with a deadline no earlier |
| Execution.LeasesAreExclusive | core/jobs.py:158-187 | two unexpired unreported leases on one job are the same lease |
| Execution.WinMakesResult | adapters/postgres/job_store.py:412-428 | a job gets its result by a fenced ack and by nothing else, once, and then names that attempt's key with its bytes in the store |
| Execution.AtMostOneWin | worker/supervisor.py:393-424 | over any run of any number of supervisors the number of winning acks of a job is one if it has a result and zero if not |
| Execution.TheWinnerStays | core/artifacts.py:29-44 | after a win, whatever runs later, the row names the winner's key, the store holds exactly the winner's bytes there, and no other attempt has that key |
| Supervisor.Supervise | worker/supervisor.py:206-271 | for every configuration construction accepts: a report that comes before the next beat and the cap ends the watch as completed, at that instant and with that outcome; a stop that does, and no report, releases the job; and otherwise the cap times it out, or a renewal that was refused, or heard to say cancelled, or unheard past the lease's deadline, ends it; no earlier turn held any of these; k beats take less than the solve timeout, the decision comes within one interval of the cap and less than two after the local lease expires, and the returned lease is precisely that of the last renewal heard |
| Supervisor.ObjectStore.Put | core/artifacts.py:47-73 | an atomic put: all of the bytes under the key or no change |
| Supervisor.Supervisor.Nack | worker/supervisor.py:426-433 | the row hears this return or nothing, and the delivery is let go |
| Supervisor.Supervisor.Install | worker/supervisor.py:393-424 | the bytes go under this attempt's key before the row is pointed at it; a failed upload is a failed attempt |
| Supervisor.Supervisor.Finish | worker/supervisor.py:308-391 | for all endings, outcomes and failing calls, field by field: a solved job whose artifact was stored is done and names it; any other is given back with that ending's error, at once if it was stopped from outside and behind the backoff if it failed, and is cancelled, dead or failed by its own flag and count; a lease taken by another leaves the row alone, and so does a stale token; only a solved child's bytes go anywhere, and nothing is held for the lease afterwards |
| Supervisor.Supervisor.RunLease | worker/supervisor.py:206-391 | from claim to report: the watch ends as its turns say, the table goes through the renewals heard, each when its turn says, amid whatever others ran, and then the row is left as `Finish` leaves it |
| Supervisor.Supervisor.RunOnce | worker/supervisor.py:173-200 | a consumer that starts with nothing held ends with nothing held, having taken exactly the first claimable delivery; the watch ends as its turns say, the rows are those of that claim, then of this attempt's own heard renewals amid whatever others ran, then as `Finish` leaves them, and the object store changed by that attempt's key or not at all |
| Reports.FinishIsARun | worker/supervisor.py:308-442 | the rows and objects any report leaves are those of a run of the world of supervisors in which this attempt alone moves |
| Reports.WatchIsARun | worker/supervisor.py:206-299 | the watch of `Supervise` is a run of the world: after its renewals, truthfully answered, the attempt believes in exactly the deadline the loop believes in, and the table has been through exactly its heard renewals amid the others' statements |
| Reports.LeaseIsARun | worker/supervisor.py:173-442 | from its claim to its report a lease is one run of the world: the rows and objects `RunLease` leaves are those the run leaves |
| Reports.LateReportChangesNothing | worker/supervisor.py:393-424 | no report, whoever's and however late, moves a result that is already there or its bytes |
| QueueMachine.RowStoreRefines | adapters/postgres/job_store.py:207-471 | every statement of the row store is a step of the abstract machine, whose steps are relations of their own: what may change for whom, and who must not be missed |
| QueueMachine.StepKeepsInv | core/jobs.py:190-343 | every step of the abstract machine, and so of whatever refines it, keeps the row invariant |
| QueueMachine.TerminalIsFinal | core/jobs.py:46-49 | in a machine in order a terminal row never changes |
| QueueMachine.MachineIsMonotone | core/jobs.py:190-343 | over every behaviour of the abstract machine, and so of the in-memory queue, attempts never decrease, a cancel flag stays and stops further claims, and a terminal row never changes |
| QueueMachine.MachineNeverFailsACancel | core/jobs.py:255-275 | in every state of every behaviour a job asked to cancel is running, cancelled or done, and can be claimed at no time |
| MemoryQueue.FindLeast | tests/MemoryJobQueue.py:127-143 | finds a row if one is due, or running at its deadline with attempts left and no cancel asked: the one with the least `run_after`, then the least `created_at`, then the earliest inserted |
| MemoryQueue.MemoryJobQueue.Enqueue | tests/MemoryJobQueue.py:67-89 | a step of the abstract machine: a new row for a new key, the known job for a known one |
| MemoryQueue.MemoryJobQueue.Cancel | tests/MemoryJobQueue.py:95-108 | writes what the row store's cancel writes |
| MemoryQueue.MemoryJobQueue.SweepRows | tests/MemoryJobQueue.py:145-188 | the loop retires every finished lapsed row and touches no other |
| MemoryQueue.MemoryJobQueue.RetireLapsed | tests/MemoryJobQueue.py:145-188 | is one retirement step of the abstract machine over the whole table |
| MemoryQueue.MemoryJobQueue.ClaimNext | tests/MemoryJobQueue.py:127-143 | one scan of `reserve` is a retirement step and then a claim step on the least reservable row, or nothing when none is |
| MemoryQueue.MemoryJobQueue.Extend | tests/MemoryJobQueue.py:223-228 | renews exactly a live lease, as the row store does |
| MemoryQueue.MemoryJobQueue.Ack | tests/MemoryJobQueue.py:230-233 | finishes exactly a live lease, as the row store does |
| MemoryQueue.MemoryJobQueue.Nack | tests/MemoryJobQueue.py:235-245 | field by field, writes what the row store's nack writes |
| Connection.StepKeepsInv | core/ws.py:81-135 | every send, close request and writer step keeps wire, in-flight frame and queue together the accepted frames, and those a prefix of the sent ones |
| Connection.WireIsAPrefix | core/ws.py:81-135 | through overflow and drain, the frames that reach the socket are the first of those sent, in order, with none left out |
| Connection.QueueIsBounded | core/ws.py:74-116 | in every state of every run of a connection with a bound, no more than that many items wait |
| Connection.OverflowsExactlyWhenFull | core/ws.py:81-116 | in every run, a frame sent before any overflow is queued if fewer than the bound wait, and otherwise exactly that many do, the latch is set and the queue stays; without a bound it is always queued |
| Connection.OverflowStopsTheWire | core/ws.py:104-135 | after an overflow at most the one frame in flight is still written |
| Connection.OverflowEndsTheWriter | core/ws.py:118-135 | an overflowed connection's idle writer has something to take, and taking it ends the writer with the close code |
| Connection.CloseFlushes | core/ws.py:93-135 | a writer that takes the stop signal has written everything queued ahead of it |
| Connection.Connection.Enqueue | core/ws.py:104-116 | queues the item exactly when there is no bound or fewer than that wait, and otherwise latches the overflow and leaves the queue alone, and says which |
| Connection.Connection.Send | core/ws.py:81-91 | queues the frame exactly when nothing has overflowed and it fits; one that does not fit sets the latch; keeps the connection in order |
| Connection.Connection.RequestClose | core/ws.py:93-102 | is one close step: the last frame, the code, and the stop signal even past an overflow |
| Connection.Connection.TakeNext | core/ws.py:118-130 | is the writer's take: a code for a stop signal or an overflow, a write otherwise |
| Connection.Connection.EndWrite | core/ws.py:126-135 | is the end of a write: it lands, or the peer is gone and the writer returns |
| ChatRepository.PostgresChatRepository.EnsureSession | adapters/postgres/chat_repository.py:73-84 | opens the session if it is new and leaves an existing one alone |
| ChatRepository.PostgresChatRepository.RecordUserMessage | adapters/postgres/chat_repository.py:86-126 | stores a new message under the next number, with its text and key, as the session's last row, or answers a repeated key with its stored row and consumes no number; nothing else changes |
| ChatRepository.PostgresChatRepository.StartAssistantMessage | adapters/postgres/chat_repository.py:128-145 | opens an empty streaming reply under the next number, as the session's last row; nothing else changes |
| ChatRepository.PostgresChatRepository.Finish | adapters/postgres/chat_repository.py:234-245 | every row with that id, in any session, gets the status, and the text if one is given and keeps its own otherwise; every other row, and every number, key and role, stays |
| ChatRepository.MergeAndCut | adapters/postgres/chat_repository.py:179-182 | the two-way merge loop, stopped at the limit, yields the merge cut at the limit |
| ChatRepository.PostgresChatRepository.LogSince | adapters/postgres/chat_repository.py:153-223 | the two bounded scans and the merge return exactly the next entries of the whole log, numbered on from the cursor |
| ChatKeys.StepKeepsKeys | core/chat_handler.py:191-307 | every step of every connection keeps keys single, acknowledgements true and live replies exact |
| ChatKeys.SubmitIsIdempotent | core/chat_handler.py:252-295 | all acknowledgements of one key, on any connections of the session, carry the same number and message and never name two replies |
| ChatKeys.OneRowAndOneReply | core/chat_handler.py:252-275 | over all runs a key has at most one row, and at most one reply was ever opened for it |
| ChatKeys.DuplicateConsumesNothing | adapters/postgres/chat_repository.py:111-123 | recording a stored key again changes no row and draws no number |
| ChatKeys.LiveRepliesAreTheRunningTurns | core/chat_handler.py:297-307 | on every connection the live replies are exactly the running turns, one a key, never above the cap |
| ChatStreams.StepKeepsStreams | core/chat_handler.py:252-348 | every step of every turn keeps what was said of each reply, who owns it, and what its row holds, in agreement |
| ChatStreams.AnnouncedStays | core/chat_handler.py:309-348 | a reply once announced is left alone for ever |
| ChatStreams.StreamedEqualsStored | core/chat_handler.py:309-348 | a `done` on the wire follows an acknowledgement naming its reply and deltas numbered from zero, and in every later state the one row of that reply is complete with the same number and precisely the text they spell |
| ChatOutcomes.FinalWrite | core/chat_handler.py:336-358 | a completing write makes its reply's rows complete with the streamed text, a failure write makes them failed with the text they had, and neither touches any other row |
| ChatOutcomes.AFailedReplyStaysFailed | core/chat_handler.py:345-358 | over every run: a reply whose turn broke and whose failure write landed has a failed row, with the text it had, in every later state up to a completing write that was still on its way |
| ChatOutcomes.AReplyStreamsUntilThen | core/chat_handler.py:252-275 | over every run: from its opening until a final write of it lands, a reply's row is there, streaming and empty |
| ChatAnswers.CanBeNamedExactlyWhen | core/chat_handler.py:191-307 | in every reachable state: some later run acknowledges a key with a reply if and only if the key is free and the cap positive, or a connection may open its reply or has opened it, or a turn of it is live on a connection whose cap exceeds one |
| ChatAnswers.AResendIsAnsweredExactlyWhen | core/chat_handler.py:204-215 | after an error has been answered for a key: a later acknowledgement can name a reply if and only if it was the recording that failed, and it did not land, or the key was stored already and could be answered before |
| ChatAnswers.ALostKeyIsNeverNamed | core/chat_handler.py:204-275 | after an opening that raised, landed or not, and after a recording of a new key that landed unheard: no acknowledgement of the key, before or after, on any connection and in any later run, names a reply |
| ChatAnswers.AnUnheardReplyStaysEmpty | core/chat_handler.py:252-275 | the row of an opening that landed unheard stays streaming and empty in every later state, no connection has a turn for it, and no delta or `done` of it is ever sent |
| ChatAnswers.AFailedOpeningLosesTheReply | core/chat_handler.py:204-275 | the input, for both outcomes of the write: a message is stored, opening its reply raises, and the resend is acknowledged with no reply; from there none can come |
| ChatAnswers.AnUnheardRecordingLosesTheReply | core/chat_handler.py:204-275 | the other input: the recording lands and raises, and the resend is acknowledged with no reply; from there none can come |
| ChatHandler.ResumeIsCompleteOrRefused | core/chat_handler.py:217-250 | the answer to a resume is the rest of the log, entry for entry and consecutively numbered, or one error exactly when more than the bound is missing |
| ChatHandler.OnePastTheBoundDecides | core/chat_handler.py:232-247 | asking the repository for one more than the bound yields that same answer |
| ChatHandler.AllReplayed | core/chat_handler.py:363-379 | every replayed frame carries back the very log entry it was made from |
| ChatWeave.WeaveOneMore | core/chat_handler.py:125-140 | a task's next step, followed by any run of the rest of the chat, extends its run of the machine |
| ChatWeave.TurnIsKept | core/chat_handler.py:309-348 | over any run of the rest of the chat a turn that awaits stays exactly as it was, and running |
| ChatHandler.ConnectionHandler.Elsewhere | core/chat_handler.py:125-140 | the rest of the chat has its turn: the handler is in the state that run leaves, its own other tasks' frames sent in order |
| ChatHandler.ConnectionHandler.Resume | core/chat_handler.py:217-250 | hands exactly the answer for the log it read to `send`, after whatever the rest of the chat did and said in the meantime, or raises and sends nothing |
| ChatHandler.ConnectionHandler.StartTurn | core/chat_handler.py:252-307 | for every way its two database calls can fail, and whatever other connections and turns do at each of its awaits, a run of the chat machine: record, open and announce for a new key, record and acknowledge again for a stored one, or the part that happened before the failure |
| ChatHandler.ConnectionHandler.Stream | core/chat_handler.py:313-326 | each chunk is sent as one numbered delta, with the rest of the chat moving after each, and exactly the chunks are gathered |
| ChatHandler.ConnectionHandler.RunTurn | core/chat_handler.py:309-348 | a whole turn is a run of the chat machine wherever it stops and whatever other connections and turns do at each of its awaits: every chunk, the stored text and then `done`, and its row is complete with the text of its chunks; or a cancel, an agent that raises or a call that fails at any point, and then the failure path, and its row is failed if that could be written |
| ChatHandler.ConnectionHandler.TurnFinished | core/chat_handler.py:297-307 | is the machine's step that ends a turn |
| ChatHandler.ConnectionHandler.Dispatch | core/chat_handler.py:142-215 | each kind of frame gets its one answer and changes nothing else, an error frame where a call raised; a resume is served at the turn cap and a message is refused there before anything is stored; the rest of the chat moves at every await |

## Left out

- SQL, indexes, query plans, migrations: each store method is one atomic transaction with its predicate, and the
  checks, foreign keys and unique keys of adapters/postgres/tables.py:202-222 are what `JobStore.Sound` says.
- `updated_at`, `last_seen_at`, `completed_at` and other columns that nothing reads back.
- AMQP topology, exchanges, `start` and `close`: the broker is a multiset of messages with ready times. The delivery
  limit of adapters/rabbitmq/job_queue.py:62 is taken as never reached.
- Millisecond truncation of a message's expiration: a message may only be ready at or after its delay.
- S3 client code: the object store is a map with an atomic put.
- The child process, its pipe and its signals: a child reports an outcome at any time or never, and the text of a
  death report is a parameter.
- The event loop: `Supervise` takes it to be prompt, so a wait ends at its timeout and a timed call at its own.
- The `run` loop of the supervisor, the polling of the in-memory `reserve`, and the maintenance loop around `_sweep`.
- Reserve: a claim that raises is the `ClaimRaises` step of `Deliveries` and not an ending of this method; the
  deliveries that arrive before the deadline are given in order, as `_next_delivery` would hand them over.
- Sweep: what this consumer's own `reserve`, `ack` and `nack` do to its deliveries between the calls of a pass.
- RunOnce: what other processes do to the table is given as lists of statements, each for a job of an existing session.
- The order in which `retire_lapsed` visits sessions, which is there against deadlock: `RetireLapsed` is proved for
  every order, and deadlock is not modelled.
- Frame JSON, validation, and the message texts of error frames; handshake, origin policy, registry, drain.
- RunTurn: proved from states in which each reply has one owner, as in every reachable one
  (`ChatStreams.StepKeepsStreams`).
- CanBeNamedExactlyWhen: two identities not in use are given, as `uuid4` makes them; so for the resend lemmas.
- Dispatch: the fresh message ids are parameters, distinct from every stored id as `uuid4` makes them.
- NoJobIsLost: proved for a job none of whose own marks lands late with nothing to cover it, because without that it
  is false; `NoJobIsLostExactlyWhen` has both directions.
- OneSlot: proved for runs in which no claim raises, because without that it is false; see above.
- "Every turn reaches a terminal row" is not promised by the code: a turn cancelled before it first runs leaves its
  row streaming.
- "A live frame never advances the client past a missed entry" is not promised either: an acknowledgement may
  overtake another producer's entry.
