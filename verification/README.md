# Verified model of the unsync primitives

This project models the hand-written synchronisation primitives of the `unsync`
crate (an intrusive wait list, a semaphore, a once cell, a broadcast channel and a
single-producer single-consumer channel) and proves what they promise over every
run: any number of tasks, any interleaving of calls, polls, failures and
cancellations.

Each primitive comes in two layers.

* **State machines over values.** `SemaphoreModel`, `OnceCellModel`,
  `BroadcastModel` and `SpscModel` define one function `Step` per primitive. A
  step is one synchronous call, one poll that makes a difference, or one drop. The
  theorems are about runs, that is, sequences of such steps from a new object
  (`SemaphoreLine`, `SemaphoreRuns`, `SemaphoreOrder`, `SemaphoreAccounts`,
  `OnceCellModel`, `BroadcastRuns`, `BroadcastDelivery`, `BroadcastAnswers`,
  `BroadcastDrain`, `SpscModel`). What is history rather than state, such as what
  was sent or who was woken, is recorded beside the state.
* **Objects.** `WaitList` is the doubly linked list on the heap, proved against a
  ghost sequence, with books of every input and output that goes through it
  (`Ledgers`). `Semaphore` with its `Acquire` future, `OnceCell` with its
  `GetOrTryInit` and `Insert` futures, and the two `Shared` blocks of the channels
  update their fields in place, with the loops of the source, over that list or
  over the slab. Every method is proved to take exactly the steps of the state
  machine that its contract names, and a future only takes its own.

The layers are joined by proof. `SemaphoreSystems.System` and
`OnceCellSystems.System` put any number of futures on one semaphore or one cell and
let them be polled, dropped and mixed with the synchronous calls in any order. Their
validity, which every method keeps, says that the steps taken so far are a run of
the state machine that ends in the state of the object, that every future is
registered with the object exactly while it waits or runs, and that whoever is
registered is one of the futures. What the calls return is tied to the steps they
take, and `OnceCellSystems.System` keeps every value that was handed to a caller,
which are all the same one (`AllAgree`). The `Shared` blocks of the channels keep
their own run in the same way. So what is proved about runs holds for the objects,
and `EverybodySleepsRightly`, `SomebodyIsAwake`, `OneInitializer` and `NothingIsLost`
say in terms of futures, tasks and wakers what follows.

What callers are told is part of the theorems, and not only what the state records.
The values that polls of `recv` returned are, in order, those that senders were told
are accepted (`FifoOfAnswers`) or that were announced since the subscription
(`ReturnedInOrder`, `ReturnedExactly`), and the permits that calls and polls handed
out and that were not given up since, together with the granted and the free ones,
are as many as the semaphore was created with, plus those added, minus those leaked
(`PermitsAccounted`). The methods state their effect on the fields in the same terms.

A waker is the identity of the task it wakes. A future is asleep when it returned
`Pending` and the task that polled it last has not been woken since it registered
its waker.

Four promises are false as first stated, and the project says exactly when they hold.

* *No permit is stranded while the head of the queue could use it.* A step strands
  permits if and only if it drops an `acquire` future queued at the head while the
  one behind it could be served with what the holders of wakeup tokens leave over
  (`StrandedIff`): that drop only unlinks the waiter. `CancelHeadStrandsExample` is a
  failing run, and the theorems about whole runs hold as long as no such drop
  happened since the wake loop ran last.
* *A default `acquire` for fewer permits does not overtake one for more.* As long as
  the latter stays queued, this holds in runs of any length (`QueuedNeverOvertaken`).
  Once it has been woken by an unfair release and not been polled yet, it can be
  overtaken: `OvertakenIff` says exactly by which steps, `OvertakingExample` is such
  a run, and `Starvation` shows that there is no bound: for every number of callers
  there is a run in which each of them overtakes the same request in turn.
* *A subscriber misses nothing.* It misses a message exactly if a `try_send` found
  it full, a `send` was abandoned before it was served, or the id of a `send`
  equals its stamp although it does not hold the message (`DeliveryExact`). The
  last happens exactly after a multiple of 2^64-1 announcements since a stamp other
  than the initial 0 (`StaleStampIff`); `WrapAroundLosesMessage` constructs such a
  run for one subscriber with room for one value, who receives each message before
  the next is sent. `SendsOnlyServe` shows that `send`s alone never get there,
  and `MixedRunsDeliver` that mixed runs with fewer messages do not either.
* *When nothing new is sent, a channel comes to rest.* A `recv` that finds nothing
  wakes the task that the sender registered last. It sleeps afterwards if and only if
  that is not its own task (`PendingSleepsIff`); otherwise it can be polled in vain any
  number of times (`SelfWakeSpins`). As long as no `recv` that is parked belongs to that
  task, only a bounded number of polls is possible (`DrainBounded`), after which the
  `send` in progress is completed and everything is received (`DrainEnds`).

The code disagrees with its comments in two places, and the model follows the code.
A new receiver is stamped with the current message id (`src/broadcast.rs:92`), not
with 0 as the comment on `bump_message_id` says; and `get_mut_unchecked` of
`src/broad_rc.rs` returns whether the other kind of handle is present, not whether
it is absent.

## Model

| member | source | states |
|---|---|---|
| WaitLists.Waiter.Resolve | src/wait_list.rs:433-449 | Waking a waiter takes its waker and its input once, and leaves the output in the union, whose variant then matches the missing waker. |
| WaitLists.Waiter.Fill | src/wait_list.rs:280-289 | `wait` fills in the storage of its future with the input and the waker, and overwrites nothing that is still held. |
| WaitLists.Waiter.Drop | src/wait_list.rs:198-208 | Dropping a waiter drops the union in the variant its waker selects: an input that was never taken, or an output that was never claimed. |
| WaitLists.WaitList.TryBorrow | src/wait_list.rs:244-250 | Borrowing succeeds exactly if nobody holds the borrow. |
| WaitLists.WaitList.Borrow | src/wait_list.rs:267-270 | The panic of a double borrow is a proof obligation of every caller, so no drop handler of the other primitives borrows a borrowed list. |
| WaitLists.WaitList.Unborrow | src/wait_list.rs:464-469 | Dropping the guard ends the borrow. |
| WaitLists.WaitList.Enqueue | src/wait_list.rs:114-133 | The pointers in both directions spell out the old queue with the waiter appended. |
| WaitLists.WaitList.Dequeue | src/wait_list.rs:140-161 | From any position: the pointers spell out the old queue without that waiter. |
| WaitLists.WaitList.IsEmpty | src/wait_list.rs:341-343 | True exactly if no waiter is queued. |
| WaitLists.WaitList.HeadInput | src/wait_list.rs:348-352 | The input of the oldest waiter, read in the right variant, or nothing if nobody waits. |
| WaitLists.WaitList.WakeOne | src/wait_list.rs:426-461 | Unlinks the oldest waiter, returns its input, leaves the output in its slot, books the exchange, and wakes exactly the task that polled it last; all other waiters keep their state. |
| WaitLists.WaitList.WakeHead | src/wait_list.rs:432-460 | Whatever is linked or registered stays so while the head gives up its waker, its input and its place. |
| WaitLists.WaitList.StartWait | src/wait_list.rs:481-488 | A new wait is queued last; every live waiter is still linked exactly if it has its waker. |
| WaitLists.WaitList.Begin | src/wait_list.rs:280-294 | The first poll of `wait`: the future's waiter is queued last with its input, the polling task is the one to wake, and the input is booked as entered. |
| WaitLists.WaitList.PollWait | src/wait_list.rs:494-511 | Ready exactly if the waiter has been woken; otherwise the latest task is the one registered. |
| WaitLists.WaitList.TakeOutput | src/wait_list.rs:296-298 | A woken wait gives out its output once, which is booked as claimed, and is over. |
| WaitLists.WaitList.DropWait | src/wait_list.rs:514-528 | Dropping a wait aborts exactly if the list is borrowed. Otherwise it unlinks the wait from wherever it is queued and drops the input or the output that it still holds, which is booked. |
| WaitLists.WaitList.Leave | src/wait_list.rs:514-528 | Dropping the inner future aborts exactly if the list is borrowed, and otherwise unlinks the waiter if and only if it still has its waker. That the abort cannot happen is proved for the semaphore and the once cell and is an obligation of other users of the list. |
| WaitLists.WaitList.DropWoken | src/wait_list.rs:198-208 | Dropping a wait that has been woken leaves the queue as it is and gives back exactly the output that was left in its slot. |
| WaitLists.WaitList.WhoHolds | src/wait_list.rs:190-208 | Exactly the queued waiters hold their input and exactly the woken ones their output: the union is in the variant that the books say. |
| WaitLists.WaitList.EverythingSettled | src/wait_list.rs:198-208 | Exactly once: when no wait is alive, every input that entered was returned by `wake_one` or dropped with its wait, and every output that was given was returned by `wait` or dropped with its wait. |
| Ledgers.Books.EnterBalances | src/wait_list.rs:280-289 | A new wait adds its input to what entered and to what is held. |
| Ledgers.Books.ExchangeBalances | src/wait_list.rs:446-448 | The swap in `wake_one` loses no input and makes up no output. |
| Ledgers.Books.ClaimBalances | src/wait_list.rs:296-298 | Moving the output out at the end of `wait` uses it up once. |
| Ledgers.Books.DiscardBalances | src/wait_list.rs:198-208 | Dropping a waiter uses up what it holds, input or output, once. |
| WaitLists.WaitList.SleepersAreQueued | src/wait_list.rs:184-187 | No lost wakeup: a wait whose last poller has not been woken since is still queued, with that task registered. |
| SemaphoreModel.ReleaseExact | src/semaphore.rs:389-421 | A release wakes exactly the longest queue prefix that fits in the free permits, in order; a fair one deducts exactly what that prefix wants, an unfair one nothing. |
| SemaphoreModel.LongestFitUnique | src/semaphore.rs:395-399 | There is only one such prefix, so the outcome of a release is determined. |
| SemaphoreModel.WakeMeasures | src/semaphore.rs:395-420 | The wake loop moves permits between the counter and grants and nowhere else. |
| SemaphoreModel.ReleaseLeavesNoneStranded | src/semaphore.rs:389-421 | Whatever the state before, after a release the free permits are too few for the head or spoken for by token holders. |
| SemaphoreModel.FailedResumeParks | src/semaphore.rs:306-317 | A waiter that resumes with a token and too few permits passes the wakeup on and is parked again, in both kinds of acquire. |
| SemaphoreModel.StepConserves | src/semaphore.rs:53-57 | Every step keeps the free, held and granted permits adding up to the total. |
| SemaphoreModel.StrandedIff | src/semaphore.rs:80-93 | Exactly when a step strands permits: it cancels the queued head while the waiter behind it could be served with what the token holders leave over. No other step does. |
| SemaphoreModel.CancelHeadStrandsExample | src/wait_list.rs:514-528 | A run of four steps after which a waiter is parked although a permit it could take is free. |
| SemaphoreLine.WakeFrame | src/semaphore.rs:395-420 | The wake loop leaves the line of suspended requests, woken first and queue behind, as it is, and takes nothing from anybody. |
| SemaphoreLine.LineMoves | src/semaphore.rs:300-329 | What every step does to the line: at most one request leaves, from anywhere, and at most one enters, at the end, which is a new one or one resumed in vain. |
| SemaphoreLine.OthersStay | src/semaphore.rs:300-329 | No step suspends a future, or ends its suspension, but the polls and the drop of that future. |
| SemaphoreLine.UniqueAlways | src/semaphore.rs:306-306 | In every reachable state each future is suspended at most once. |
| SemaphoreRuns.ConservationAlways | src/semaphore.rs:151-152 | In every reachable state each permit is free, held or granted, exactly once. |
| SemaphoreRuns.ArithmeticNeverOverflows | src/semaphore.rs:390-390 | In every reachable state the unchecked addition of a release cannot overflow and the subtraction of a leak cannot go below zero. |
| SemaphoreRuns.NoStrandedAlways | src/semaphore.rs:80-93 | No permit is stranded in any reachable state without a stranding cancellation since the last run of the wake loop. |
| SemaphoreRuns.DeadlockFree | src/semaphore.rs:543-548 | Then, with every permit back and every woken waiter polled, a waiter is parked only for more permits than there are. |
| SemaphoreRuns.DrainBounded | src/semaphore.rs:300-329 | Polling woken waiters and returning permits goes on for a bounded number of steps in any order: failed polls cannot go round for ever. |
| SemaphoreRuns.DrainEnds | src/semaphore.rs:300-329 | When that ends, nothing is held or about to be polled, all permits are free, and the queue is empty or its head wants more than the total. |
| SemaphoreRuns.DrainServesAll | src/semaphore.rs:300-329 | When it ends and nobody wanted more than the total, everybody has been served and all permits are free. |
| SemaphoreOrder.FirstComeFirstServed | src/semaphore.rs:16-29 | In fair runs the calls given permits followed by the calls still queued are exactly the calls made, in call order. |
| SemaphoreOrder.GrantReserved | src/semaphore.rs:95-102 | A grant or token stays with its waiter until that waiter is polled or cancelled. |
| SemaphoreOrder.WokenStay | src/semaphore.rs:95-102 | Every step keeps the woken waiters in place, but for the one that is polled or dropped, and adds new ones behind them. |
| SemaphoreOrder.OvertakenIff | src/semaphore.rs:19-29 | Exactly when an operation without `unfair` in its name gives permits past a suspended request that has none reserved: never while it is queued; once woken, if a caller finds the queue empty and enough permits, somebody woken later takes them first, or a fair release reaches the head of the queue. |
| SemaphoreOrder.QueuedNeverOvertaken | src/semaphore.rs:21-24 | Over any number of such operations, permits only go to requests that were before a request that stays queued, whatever the sizes, and every `try_acquire` fails without a trace. |
| SemaphoreOrder.OvertakingExample | src/semaphore.rs:306-317 | A run in which a default `acquire` for 1 permit is served before a woken one for 2, which then goes back to the end of the queue. |
| SemaphoreOrder.Starvation | src/semaphore.rs:306-317 | There is no bound on overtaking: for every list of callers there is a run without `unfair` operations in which a request for 2 permits is woken once for each of them, each of them is served first, and the request resumes in vain. |
| SemaphoreAccounts.StepLedger | src/semaphore.rs:501-505 | What every step does to the permits held and to the total: callers hold what was handed to them and not given up, and only adding and leaking change the total, by exactly the amount. |
| SemaphoreAccounts.StepWakes | src/semaphore.rs:389-421 | What every step does to the free permits, the woken waiters and the queue: a step that runs the wake loop wakes the longest prefix that fits in what is free then, no other step wakes anybody, and free permits change by what was freed, handed out and granted. |
| SemaphoreAccounts.HeldIsOutstanding | src/semaphore.rs:239-283 | In every run the permits held are those that answers handed out and that were not given up since, and the total is that of the new semaphore plus what was added minus what was leaked. |
| SemaphoreAccounts.PermitsAccounted | src/semaphore.rs:151-152 | So in every run the free permits, the granted ones and those in the hands of callers add up to that total, and callers never hold more than there are. |
| Semaphores.Semaphore.constructor | src/semaphore.rs:115-121 | All permits of a new semaphore are free and are the total, and its list is new and knows no waiter. |
| Semaphores.Semaphore.ReleasePermits | src/semaphore.rs:389-421 | The loop over the linked queue computes exactly the release of the model; the free and granted permits grow together by what is released, and an unfair release adds all of it to the free ones. |
| Semaphores.Semaphore.WakeWaiters | src/semaphore.rs:393-421 | The wake loop computes the wake function of the model and ends. |
| Semaphores.Semaphore.WakeHead | src/semaphore.rs:401-419 | One round hands the head its grant or token and deducts in a fair release; the failed `wake_one` is unreachable. |
| Semaphores.Semaphore.TryAcquire | src/semaphore.rs:239-246 | Succeeds exactly if nobody is queued and enough permits are free, and then takes exactly those out of the free ones and hands them out; otherwise nothing changes. |
| Semaphores.Semaphore.TryAcquireUnfair | src/semaphore.rs:275-283 | Succeeds exactly if enough permits are free, with the same effect. |
| Semaphores.Semaphore.AddPermits | src/semaphore.rs:185-194 | Fails exactly if the total would overflow a word, and otherwise raises the total and the free permits by the amount and releases unfairly. |
| Semaphores.Semaphore.AddPermitsFair | src/semaphore.rs:216-220 | The same with a fair release, which may grant some of the new permits at once. |
| Semaphores.Semaphore.DropPermit | src/semaphore.rs:543-548 | A dropped permit is no longer held, and all of it becomes free, without overflow. |
| Semaphores.Semaphore.ReleaseFair | src/semaphore.rs:537-540 | A permit that is released fairly is no longer held, and becomes free or granted, without overflow. |
| Semaphores.Semaphore.Leak | src/semaphore.rs:501-505 | Leaking a permit lowers the total by it, without underflow; it is no longer held, and the free permits and the waiters stay as they are. |
| Semaphores.Semaphore.DropWakeUp | src/semaphore.rs:87-110 | The drop handlers of token and grant re-enter the release with nothing, or with the granted permits. |
| Semaphores.Semaphore.Contend | src/semaphore.rs:301-306 | The top of the acquire loop takes permits or queues the future's own waiter, which will wake the polling task; both are the same step of that future. |
| Semaphores.Semaphore.Attempt | src/semaphore.rs:301-304 | Either kind of attempt succeeds exactly if that kind of acquire admits the request, and otherwise changes nothing. |
| Semaphores.Semaphore.Park | src/wait_list.rs:280-294 | The acquire is queued last, with the polling task as the one to wake. |
| Semaphores.Semaphore.Resume | src/semaphore.rs:306-327 | A woken waiter claims its grant, takes permits and forgets its token, or drops the token and contends again. |
| Semaphores.Semaphore.Reattempt | src/semaphore.rs:312-317 | A token holder takes permits if there are enough, and otherwise re-runs the wake loop and is queued last. |
| Semaphores.Semaphore.PollRequest | src/wait_list.rs:494-511 | A suspended acquire resumes exactly if it has been woken, and otherwise registers the polling task. |
| Semaphores.Semaphore.CancelQueued | src/wait_list.rs:514-528 | Cancelling a queued acquire removes it from the queue, drops its input and does nothing else. |
| Semaphores.Semaphore.CancelWoken | src/semaphore.rs:104-110 | Cancelling a woken acquire gives its permits back or passes its wakeup on. |
| Semaphores.Semaphore.AbandonWakeUp | src/wait_list.rs:198-208 | Dropping the wait of a woken acquire drops exactly the wakeup it was given. |
| Semaphores.Acquire.Poll | src/semaphore.rs:300-387 | A poll of either kind of acquire is a stutter while queued; otherwise it is exactly one step, the call or the resumption of this very future, and no other waiter becomes known to the list or unknown. |
| Semaphores.Acquire.Drop | src/semaphore.rs:80-110 | Dropping an acquire future cancels its own request, in the queue or among the woken waiters, wherever it is, and nobody else's. |
| Semaphores.Acquire.SleeperIsQueued | src/semaphore.rs:306-306 | An acquire that sleeps is queued for its permits and was not passed over. |
| Semaphores.Acquire.OthersStep | src/semaphore.rs:300-387 | What other futures do leaves this one registered where it was. |
| SemaphoreSystems.System.Poll | src/semaphore.rs:300-387 | With any number of futures on one semaphore: polling any of them extends the run by at most one step of that future, and all futures stay registered as they should. |
| SemaphoreSystems.System.Cancel | src/semaphore.rs:80-110 | The same for dropping any of them. |
| SemaphoreSystems.System.Operate | src/semaphore.rs:185-283 | The same for every synchronous call, which is one step of the run; what it gives back, a permit, nothing or a panic, is determined by the state before and the call, and what is held changes by exactly the permit handed out or given up. |
| SemaphoreSystems.System.StaysPopulated | src/semaphore.rs:306-306 | After a step of one future, every suspended request is that of a future that waits, and conversely. |
| SemaphoreSystems.System.EverybodySleepsRightly | src/semaphore.rs:80-93 | When all waiting futures sleep, all permits are back and no cancellation has stranded any, either no future waits or the oldest one wants more permits than there are. |
| SemaphoreSystems.System.PermitsAccounted | src/semaphore.rs:151-152 | The same balance for the counters of a semaphore with any number of futures. |
| SemaphoreSystems.System.NothingIsLost | src/wait_list.rs:198-208 | Once no future waits any more, every request and every grant or token has been used up exactly once. |
| OnceCellModel.StepKeepsInv | src/once_cell.rs:35-56 | Every step, including errors, panics and cancellations, keeps the job in exactly one pair of hands. |
| OnceCellModel.JobIsExclusive | src/once_cell.rs:26-30 | In every reachable state the cell is initializing exactly if one running future or one handed-over baton owns the job, and nobody owns it otherwise. |
| OnceCellModel.OthersStay | src/once_cell.rs:260-306 | No step makes a future wait or run, or ends its waiting or running, but the polls and the drop of that future. |
| OnceCellModel.NobodyWaitsOutsideInitialization | src/once_cell.rs:271-274 | A resumed waiter never finds the cell uninitialised, `set` stores only when nobody waits, and a success leaves nobody queued. |
| OnceCellModel.NoWaiterLeftBehind | src/once_cell.rs:48-54 | When nobody initializes and nobody is about to resume, nobody is queued and the cell is not stuck. |
| OnceCellModel.AtMostOneInitializerPerWaiter | src/once_cell.rs:265-282 | With n queued waiters and no new calls at most n + 1 initializers run. |
| OnceCellModel.SettlingBounded | src/once_cell.rs:260-306 | Without new calls every sequence of polls, outcomes and cancellations is bounded. |
| OnceCellModel.WakeAllExact | src/once_cell.rs:302-303 | The success loop wakes every queued waiter, in order, and hands out no job. |
| OnceCellModel.OldestFirst | src/once_cell.rs:18-22 | Unless queued calls are cancelled, waiters are woken in call order. |
| OnceCellModel.WriteOnce | src/once_cell.rs:146-153 | Once the cell holds a value it holds that value in every later state. |
| OnceCellModel.SeenAgree | src/once_cell.rs:260-306 | Any two callers that are shown a value are shown the same one. |
| OnceCellModel.StoredOnce | src/once_cell.rs:145-154 | At most one step of a run stores a value. |
| OnceCells.OnceCell.Set | src/once_cell.rs:145-154 | Stores exactly if the cell is uninitialised, and otherwise leaves it as it is and gives the value back, with the present one if there is one. |
| OnceCells.OnceCell.WakeNext | src/once_cell.rs:50-50 | Wakes the oldest waiter with a baton, or reports that nobody waits. |
| OnceCells.OnceCell.HandOver | src/once_cell.rs:50-54 | Borrows the list, gives the job to the oldest waiter, or reports that nobody waits. |
| OnceCells.OnceCell.DropBaton | src/once_cell.rs:35-56 | Dropping a baton passes the job to the oldest waiter or resets the cell, and touches the list only while the cell is initializing. |
| OnceCells.OnceCell.WakeEveryone | src/once_cell.rs:302-303 | The success loop over the linked list wakes everybody; its leftover baton is dropped harmlessly while the list is borrowed. |
| OnceCells.OnceCell.WakeLoop | src/once_cell.rs:303-303 | The loop computes the wake-all function of the model and ends. |
| OnceCells.OnceCell.Enter | src/once_cell.rs:265-282 | The first poll begins to initialize, queues the future's own waiter, or finds the value. |
| OnceCells.OnceCell.PollWaiter | src/once_cell.rs:270-279 | A waiting call resumes exactly if it has been woken. |
| OnceCells.OnceCell.Park | src/wait_list.rs:280-294 | The call is queued last, with the polling task as the one to wake. |
| OnceCells.OnceCell.Resume | src/once_cell.rs:270-279 | A resumed waiter takes the job over or finds the value; the third branch is unreachable. |
| OnceCells.OnceCell.Succeed | src/once_cell.rs:296-303 | Stores the value, disarms the guard of the runner and wakes everybody. |
| OnceCells.OnceCell.Fail | src/once_cell.rs:288-292 | The guard hands the job on when its initializer errors, panics or is cancelled. |
| OnceCells.OnceCell.CancelQueued | src/wait_list.rs:514-528 | Cancelling a queued call only removes it from the queue. |
| OnceCells.OnceCell.CancelWoken | src/once_cell.rs:35-56 | Cancelling a woken call drops its baton, which hands the job on. |
| OnceCells.OnceCell.AbandonBaton | src/wait_list.rs:198-208 | Dropping the wait of a woken call takes exactly its baton out of the slot and out of the line. |
| OnceCells.GetOrTryInit.Poll | src/once_cell.rs:260-306 | A poll takes at most two steps, both of this very future: the call or the resumption, unless it is queued, and the end of its initializer, if that was polled and ended. A returned value is the one in the cell, an error is the initializer's own. |
| OnceCells.GetOrTryInit.RunInitializer | src/once_cell.rs:294-305 | What the initializer does decides poll and step: pending and no step, the stored value and the successful step, or its error or unwinding and the failing step. |
| OnceCells.GetOrTryInit.Finish | src/once_cell.rs:284-303 | The end of an initializer with or without a value is the one step of its runner. |
| OnceCells.GetOrTryInit.Drop | src/once_cell.rs:284-294 | Dropping the future cancels its own waiting call wherever it is, or hands the job on if it ran its initializer. |
| OnceCells.GetOrTryInit.SleeperIsQueued | src/once_cell.rs:269-270 | A call that sleeps is queued while somebody else has the job. |
| OnceCells.GetOrTryInit.RunsAlone | src/once_cell.rs:26-30 | The cell has no runner beside a running future. |
| OnceCells.GetOrTryInit.OthersStep | src/once_cell.rs:260-306 | What other futures do leaves this one registered where it was. |
| OnceCells.InitializersNeverOverlap | src/once_cell.rs:26-30 | Two futures that run their initializers on one cell are the same. |
| OnceCells.Insert.Poll | src/once_cell.rs:206-215 | Accepted exactly if this call stored its own value in its last step; otherwise the value comes back together with the one in the cell. |
| OnceCellSystems.System.Poll | src/once_cell.rs:260-306 | With any number of futures on one cell and any outcomes: polling any of them extends the run by steps of that future, and all futures stay registered as they should. A value that is returned joins those handed out, and an error or unwinding is that of the initializer that this poll ran. |
| OnceCellSystems.System.PollInsert | src/once_cell.rs:206-215 | The same for `insert`: the caller gets its own value back if it is rejected, its own value is the one stored if it is accepted, and the value shown joins those handed out. |
| OnceCellSystems.System.Cancel | src/once_cell.rs:284-294 | The same for dropping any of them. |
| OnceCellSystems.System.Set | src/once_cell.rs:145-154 | The same for `set`, which is one step of the run and returns what the state before says; a value shown joins those handed out. |
| OnceCellSystems.System.Get | src/once_cell.rs:81-86 | Shows the value if there is one, which joins those handed out. |
| OnceCellSystems.System.AllAgree | src/once_cell.rs:260-306 | Any two values that were ever handed to callers of `get_or_try_init`, `insert`, `set` and `get` are the same, and it is the one in the cell. |
| OnceCellSystems.System.StaysPopulated | src/once_cell.rs:269-282 | After a poll of one future, whoever waits or runs in the cell is one of the futures that wait or run, and conversely. |
| OnceCellSystems.System.OneInitializer | src/once_cell.rs:26-30 | At most one of the futures runs its initializer. |
| OnceCellSystems.System.SomebodyIsAwake | src/once_cell.rs:48-54 | The job is never lost: if no future runs an initializer and all that wait sleep, then none waits and the cell is not stuck. |
| OnceCellSystems.System.NothingIsLost | src/wait_list.rs:198-208 | Once no future waits any more, every baton has been used up exactly once. |
| OnceCellSystems.System.ValueIsFinal | src/once_cell.rs:146-153 | Once the cell had a value at any time, it has that value now. |
| BroadcastRuns.BumpNClosed | src/broadcast.rs:101-113 | k bumps from an id of at least 1 cycle through 1 to 2^64-1 and skip 0. |
| BroadcastRuns.BumpNFromZero | src/broadcast.rs:101-113 | The initial id 0 never comes back. |
| BroadcastRuns.StaleStampCollides | src/broadcast.rs:312-316 | Exactly after how many bumps an old stamp equals the current id. |
| BroadcastRuns.StepKeepsInv | src/broadcast.rs:295-339 | Every step keeps order, capacity, stamps, bookkeeping and the soundness of sleeping. |
| BroadcastDelivery.SubscribersAgree | src/broad_rc.rs:64-82 | Slab, weak count and live receivers agree in every reachable state. |
| BroadcastDelivery.FreedOnceAtTheEnd | src/broad_rc.rs:32-38 | The shared block is freed once, exactly when the last handle goes, and nothing follows. |
| BroadcastDelivery.DeliveredInOrder | src/broadcast.rs:394-412 | Received plus buffered values are messages sent since the subscription, in order, each at most once, within the buffer's capacity, whatever was cancelled or failed. |
| BroadcastDelivery.ClosedAfterEverything | src/broadcast.rs:400-417 | The end of the channel is reported only after everything buffered, and never for lack of a slot. |
| BroadcastDelivery.NeverAllAsleep | src/broadcast.rs:405-427 | While a send sleeps, some subscriber that is awake has a value to receive. |
| BroadcastDelivery.SleepingRecvIsRight | src/broadcast.rs:419-427 | A sleeping receive has nothing to do and its latest waker is registered. |
| BroadcastDelivery.SleepingSendIsRight | src/broadcast.rs:305-337 | A sleeping send would change nothing if polled again, and its latest waker is registered. |
| BroadcastDelivery.SendCompletesIff | src/broadcast.rs:309-337 | A poll completes the send exactly if no subscriber is full and still without the message. |
| BroadcastDelivery.CompleteIff | src/broadcast.rs:311-331 | Exactly when a step keeps a subscriber complete; a missed message stays missed. |
| BroadcastDelivery.DeliveryExact | src/broadcast.rs:233-240 | A subscriber has got every message since it subscribed if and only if every step since then served it. |
| BroadcastDelivery.GuaranteedDelivery | src/broadcast.rs:121-125 | Then received plus buffered values are exactly the values sent since it subscribed. |
| BroadcastDelivery.SendsOnlyServe | src/broadcast.rs:272-280 | With completed sends alone every subscriber is always served, in runs of any length. |
| BroadcastDelivery.MixedRunsDeliver | src/broadcast.rs:121-125 | With fewer than 2^64-1 messages since a subscription, no abandoned `send` and no `try_send` that found the subscriber full, it has received or buffered exactly what was sent since. |
| BroadcastDelivery.StaleStampIff | src/broadcast.rs:312-316 | Exactly when a send passes a subscriber over because of its stamp. |
| BroadcastDelivery.WrapAroundLosesMessage | src/broadcast.rs:312-316 | A run in which a `send` completes without reaching a subscriber that has received every message before it and has an empty buffer with room for one value. |
| BroadcastRuns.RecvExact | src/broadcast.rs:394-429 | What a poll of `recv` answers and does: a returned value is the oldest of that subscriber's buffer and joins what it has received; otherwise the buffer was empty, and the answer is the end exactly if the sender is gone. |
| BroadcastAnswers.AnswersAreHistory | src/broadcast.rs:394-429 | What a subscriber has received is exactly the sequence of values that polls of `recv` returned to it since it subscribed. |
| BroadcastAnswers.ReturnedInOrder | src/broadcast.rs:394-412 | Whatever was cancelled or failed, the values returned to a subscriber, followed by those it has buffered, are messages that `send` and `try_send` were called with since it subscribed, in order, each at most once. |
| BroadcastAnswers.ReturnedExactly | src/broadcast.rs:121-125 | If every step since the subscription served it, they are exactly those messages. |
| BroadcastAnswers.FullIff | src/broadcast.rs:47-51 | A subscriber takes no further value exactly if its buffer is bounded and full to the last place, and it has at least as many places as the capacity of the channel. |
| BroadcastAnswers.UnboundedNeverWaits | src/broadcast.rs:84-87 | In a channel without capacity no subscriber is ever full and no poll of `send` is pending. |
| BroadcastDrain.PendingSleepsIff | src/broadcast.rs:419-427 | Exactly when a `recv` that finds nothing sleeps afterwards: unless the task it registers is the one the sender registered last. |
| BroadcastDrain.DrainBounded | src/broadcast.rs:295-427 | With nothing new to send, and no parked `recv` on the task of the sender, only a bounded number of polls of futures that do not sleep is possible, in any order. |
| BroadcastDrain.DrainEnds | src/broadcast.rs:295-427 | When that ends, the `send` in progress is completed and every subscriber has received all that was put into its buffer, in order. |
| BroadcastDrain.EverythingReceived | src/broadcast.rs:121-125 | Then polls of `recv` have returned to a subscriber that every step has served exactly what was sent since it subscribed. |
| BroadcastDrain.SelfWakeSpins | src/broadcast.rs:423-425 | For every n there is a run in which a `recv` on the task of the sender is polled in vain n times in a row without ever sleeping. |
| Broadcasts.Shared.BumpMessageId | src/broadcast.rs:101-113 | The 64-bit increment with wrap-around that skips 0. |
| Broadcasts.Shared.Subscribers | src/broadcast.rs:167-172 | The number of live receivers. |
| Broadcasts.Shared.Subscribe | src/broadcast.rs:80-164 | A new receiver has an empty buffer of the room granted, unbounded exactly if the channel has no capacity, no waker and the current id as its stamp, and is counted; the other slots stay. |
| Broadcasts.Shared.TryRound | src/broadcast.rs:211-223 | The loop of `try_send` gives the message to exactly the receivers with room, wakes exactly those of them that wait, and counts them. |
| Broadcasts.Shared.TryOfferTo | src/broadcast.rs:213-222 | One receiver gets the message and is woken exactly if it has room; it is not stamped. |
| Broadcasts.Shared.TrySend | src/broadcast.rs:201-231 | Every receiver with a free place, and nobody else, has the message appended; exactly the tasks registered with those are woken; the answer counts them and is a success exactly if that was all. |
| Broadcasts.Shared.TryServe | src/broadcast.rs:202-230 | What `try_send` does to the block, and what it returns, is that of the model, whether or not there are receivers. |
| Broadcasts.Shared.TryDeliver | src/broadcast.rs:205-230 | The rest of `try_send`: all receivers with room are served, and success means that all had room. |
| Broadcasts.Shared.StartSend | src/broadcast.rs:272-280 | Announces the message under a new id. |
| Broadcasts.Shared.SendRound | src/broadcast.rs:309-331 | The loop of a send poll serves exactly the unstamped receivers with room, wakes them and counts all stamped ones. |
| Broadcasts.Shared.OfferTo | src/broadcast.rs:312-330 | One receiver gets the message, is stamped and woken exactly if it has room and is not stamped yet. |
| Broadcasts.Shared.PollSend | src/broadcast.rs:295-339 | Every receiver without the stamp and with a free place, and nobody else, has the message appended and is stamped; exactly the tasks registered with those are woken; ready, with the number of subscribers, exactly if all carry the stamp, and otherwise the polling task is registered. |
| Broadcasts.Shared.Serve | src/broadcast.rs:298-337 | What the poll does to the block is the send step of the model, with the latest task registered, and it is ready exactly if that step ends the send. |
| Broadcasts.Shared.Deliver | src/broadcast.rs:307-337 | The round of a send poll and its tally: ready exactly if every receiver carries the stamp afterwards, with the number of receivers. |
| Broadcasts.Shared.PollRecv | src/broadcast.rs:394-429 | Returns the oldest buffered value, which leaves the buffer and joins what the subscriber has received, or else the end if the sender is gone, or registers the task; unless the end is returned, the task that the sender registered last is woken; the other receivers stay as they are. |
| Broadcasts.Shared.Receive | src/broadcast.rs:397-427 | What the poll does to the block is the receive step of the model: the value returned is the one that leaves the front of the buffer. |
| Broadcasts.Shared.CancelRecv | src/broadcast.rs:381-392 | Dropping a `recv` future concerns nothing but that future. |
| Broadcasts.Shared.DropReceiver | src/broadcast.rs:450-462 | Vacates that slot only, takes and wakes the sender's waker, and frees the block exactly with the last handle. |
| Broadcasts.Shared.Vacate | src/broadcast.rs:452-460 | What the drop does to the block is the step of the model, and the block is freed exactly with the last handle. |
| Broadcasts.Shared.DropSender | src/broadcast.rs:433-448 | Takes the waker of every receiver and wakes exactly those tasks, and frees the block exactly with the last handle. |
| Broadcasts.Shared.TakeAllWakers | src/broadcast.rs:441-445 | The loop takes every receiver's waker and wakes exactly those tasks, in order. |
| Broadcasts.RoundWakes | src/broadcast.rs:317-329 | A round over the receivers wakes a task exactly if it is registered with a receiver that was given the message. |
| SpscModel.StepKeepsInv | src/spsc.rs:169-201 | Every step keeps the order of values, the capacity and the soundness of sleeping. |
| SpscModel.FifoAlways | src/spsc.rs:259-289 | Received plus buffered values are the accepted values in order, and a bounded buffer never outgrows its allocation. |
| SpscModel.NeverBothAsleep | src/spsc.rs:181-197 | The two ends never sleep at the same time, and whoever sleeps has nothing to do. |
| SpscModel.ClosedAfterEverything | src/spsc.rs:274-277 | The end is reported only after the sender is gone and every accepted value was received. |
| SpscModel.UnboundedNeverParks | src/spsc.rs:336-351 | An unbounded channel never makes a sender wait. |
| SpscModel.TrySendExact | src/spsc.rs:98-114 | `try_send` accepts exactly if both ends are there and the buffer has a place left, down to the last one; an accepted value is appended, and a refused one comes back and changes nothing. |
| SpscModel.PollSendExact | src/spsc.rs:169-201 | A poll of `send` accepts likewise, refuses with the value if the receiver is gone, and waits exactly if both ends are there and the buffer is full to the last place. |
| SpscModel.PollRecvExact | src/spsc.rs:259-289 | A value returned by `recv` is the oldest of the buffer and joins what was received; the end is reported exactly if the buffer is empty and the sender is gone. |
| SpscModel.FifoOfAnswers | src/spsc.rs:259-289 | In every run the n-th value that a poll of `recv` returned is the n-th one that a sender was told is accepted, and those not returned yet are in the buffer. |
| SpscModel.PendingSleepsIff | src/spsc.rs:279-286 | Exactly when a `recv` that finds nothing sleeps afterwards: unless the task it registers is the one the sender registered last. |
| SpscModel.DrainBounded | src/spsc.rs:169-289 | With nothing new to send, and the two ends on different tasks, only a bounded number of polls of futures that do not sleep is possible, in any order. |
| SpscModel.DrainEnds | src/spsc.rs:169-289 | When that ends, the `send` in progress is completed, and a receiver that is still there has received everything that was accepted. |
| SpscModel.EverythingReturned | src/spsc.rs:259-289 | In a whole run that ends so, polls of `recv` have returned exactly the accepted values. |
| SpscModel.SelfWakeSpins | src/spsc.rs:283-285 | For every n there is a run in which a `recv` on the task of the sender is polled in vain n times in a row without ever sleeping. |
| Spsc.Shared.TrySend | src/spsc.rs:98-114 | Accepts exactly if both ends are alive and the buffer has a free place, appends the value then and wakes the receiver's task, and otherwise gives the value back and changes nothing. |
| Spsc.Shared.PollSend | src/spsc.rs:169-201 | Accepts likewise; waits, with the task registered, exactly if both ends are alive and the buffer is full; refuses with the value if the receiver is gone. |
| Spsc.Shared.PollRecv | src/spsc.rs:259-289 | Returns the oldest buffered value, which leaves the buffer and joins what was received, or reports the end exactly if there is none and the sender is gone, or registers the task; unless the end is returned, the task that the sender registered last is woken. |
| Spsc.Shared.CancelRecv | src/spsc.rs:247-257 | Dropping a `recv` future concerns nothing but that future. |
| Spsc.Shared.DropSender | src/spsc.rs:292-300 | Takes and wakes a waiting receiver's waker and lowers the count; what is buffered stays. |
| Spsc.Shared.DropReceiver | src/spsc.rs:302-310 | Takes and wakes a waiting sender's waker and lowers the count. |

## Left out

- Executors, waker vtables, and wakers that re-enter the primitive or panic: waking is recorded, and it runs nothing.
- Pinning, lifetimes, aliasing of cells and the memory of union fields beyond which variant is live.
- The insides of the slab and of the buffers: the vacant key that the slab picks and the capacity that an allocation grants (at least the one asked for) are parameters of a subscription.
- The bodies of async functions are split at their suspension points by hand into `Stage` values and methods; an initializer of the once cell is represented by what it does when polled. Steps of other tasks may come between the start of an initializer and its outcome in the runs, which covers initializers that use the cell while they run.
- `oneshot` and `bi_rc` as subjects of their own, except for the two-ends-alive count that `spsc` reads.
- `get_mut`, `take` and `into_inner` of the once cell, which need exclusive access, and `get_or_init`, which is `get_or_try_init` without errors.
- Forgetting a permit or a future instead of dropping it, and initializing a once cell recursively.
- Words are 64 bits wide. A subscription that would overflow the weak count aborts the program, so the model has no such step.
- The runs of the semaphore and the once cell record which waiters were woken; which tasks that wakes is stated for the objects (`WakeOne`, `SleepersAreQueued`, `EverybodySleepsRightly`, `SomebodyIsAwake`).
- Formatting, error types, `Clone` and `PartialEq` of the once cell, benchmarks and features.
- SemaphoreRuns.NoStrandedAlways: says nothing between a stranding cancellation and the next run of the wake loop, because the promise is false there.
- SemaphoreRuns.DrainServesAll: is about waiters that want no more than the total, because whoever wants more waits until permits are added, and those behind wait with it; `DrainEnds` has no such premise.
- BroadcastDrain.DrainBounded: is about polls in which no `recv` is parked on the task that the sender registered last, because otherwise there is no bound.
- SpscModel.DrainBounded: has the same premise for the same reason.
- SemaphoreOrder.FirstComeFirstServed: is about runs without unfair operations and cancellations; for the others `OvertakenIff` says who overtakes whom.
