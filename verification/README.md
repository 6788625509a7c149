# A model of the PostgreSQL client library

The library hands out pooled connections, sends queries through one worker thread per client, runs
callbacks on a small pool of threads, wraps transactions, cuts SQL scripts into statements and codes
parameters and results in PostgreSQL's binary format. This project models six parts of it and proves
what each keeps in every run or for every input.

* **Connection pool** (`PoolProtocol`, `PoolRuns`, `PoolWarmup`, `PoolCalm`, `PoolReady`, `ConnectionPool`). A transition system
  with one step for each lock section or semaphore operation, for any number of sessions and warm-up
  threads. The class `ConnectionPool.Pool` is the code itself; between any two of its accesses it lets
  an arbitrary schedule of the other threads run, and each method is proved to be a run of the protocol in
  which its own steps are those the code takes.
* **SQL scanner** (`SqlTokens`, `SqlParser`, `SqlNormal`, `SqlCompose`, `SqlLaws`). The one-pass scanner against a
  specification made of tokens, segments and layout, and the laws of that specification.
* **Binary codec** (`Bytes`, `Numeric`, `Params`). Encoder and decoder as a pair, with the host's widths
  and wrap-around written out.
* **Request worker and callback pool** (`ClientProtocol`, `ClientRuns`, `PostgresClient`). The protocol of
  submitters, worker, callback workers, overflow threads and destructor, and the code against it.
* **Transactions** (`TransactionProtocol`, `Transaction`, `TransactionOrder`). What handles send, in every
  interleaving, and how that order reaches the worker, as one system with the client.
* **Reference counts and managers** (`RefCounts`, `RefSteps`, `IntrusivePtr`, `PointerArena`, `Managers`,
  `ConnectionManager`, `ManagerTable`). Counts equal pointers, operation by operation and, between threads,
  atomic access by atomic access; connections are returned once; managers keep the pool alive.

`Tally` holds sums and unions over threads, `Sequences` facts about concatenation, `Wrappers` an optional value.

Where a protocol has a schedule as input, the schedule stands for every choice of the scheduler. A timed
wait, a heartbeat falling due, the success of a query or of creating a connection are inputs, so every
combination of them is covered.

Where the code is not what its comments or names suggest, the model follows the code:

* Zero as NUMERIC: the comment at include/database/internal/type_detail.h:183 describes an eight-byte
  header; the initialiser on line 184 builds the two bytes 8 and 0, which do not read back.
* A NUMERIC message with a count from -4 to -1 passes the size test at include/database/result/colunm.h:207
  and reads as zero; below that the unsigned conversion makes the test fail.
* `max_size` does not bound the connections. A connection taken from the queue takes no permit, but its
  return releases one. `PoolRuns.SizeKeptIff` says exactly when the size is kept, `PoolCalm.CalmSizeKeptIff`
  when sessions wait for the pool to be ready.
* A session let in while an eager pool warms up can leave it unready for good, and whoever waits for the
  warm-up with it. `PoolReady.ReadyIff` says that one is enough and that without one it never happens.
* The parser is not idempotent: deleting a comment can put together two characters that open a new one
  (`SqlCompose.CommentGlue`); `SqlNormal.IdempotentScriptIff` says for exactly which scripts it is.
* An unterminated block comment leaves the last character of the script to be scanned as code.
* A stop requested while a request executes makes the worker leave at the loop head, without the drain
  (`ClientRuns.HeadExitLeavesPending`); `ClientRuns.StopLosesIff` says exactly when calling
  the destructor can lose a request.
* Assigning over a manager that has a connection destroys that connection and its permit is not released.
* `PostCallback` has a route that runs the callback inline on callback threads; only the database worker calls
  it, so that route is never taken.

## Model

| member | source | states |
|---|---|---|
| PoolRuns.EveryRun | dependencies/core/include/database/connection_pool_impl.h:43-162 | after any interleaving of any number of sessions and fillers: permits in the pool, in hands and owed, plus connections acquire created, equal permits granted plus connections returned; each live connection is in exactly one place and no other connection is in any; live and in-creation connections never outnumber the peak number of simultaneous sessions plus the warm-up pushes |
| PoolRuns.NoLostWakeup | dependencies/core/include/database/connection_pool_impl.h:109-137 | at rest, a session that waits for a permit while a connection lies in the queue can take a permit, and its next look gives it that queue's front |
| PoolRuns.CreationBound | dependencies/core/include/database/connection_pool_impl.h:125-143 | acquire never creates more than was granted plus what came back, so a lazy pool creates at most the larger of its two sizes before the first return |
| PoolRuns.SizeKeptIff | dependencies/core/include/database/connection_pool_impl.h:9-162 | for every configuration and every bound on simultaneous sessions: all runs keep the live connections within max_size if and only if the bound, plus the initial connections of an eager pool, is within it (or the pool can create nothing at all) |
| PoolRuns.WarmsUpIff | dependencies/core/include/database/connection_pool_impl.h:16-30 | an eager pool with 0 < init_size <= max_size is not ready at first and has a filler and a permit for each initial connection; any other pool is ready in every run, never makes a connection by itself, and has the larger of its sizes in permits from the start |
| PoolRuns.FirstInFirstOut | dependencies/core/include/database/connection_pool_impl.h:111-160 | in every run the queue is first in, first out: the connections put in are those sessions got out, in order, and then those still in |
| PoolRuns.LiveBound | dependencies/core/include/database/connection_pool_impl.h:43-162 | in every run the live connections are at most the peak of sessions, plus the initial size of an eager pool, and none if both sizes are zero |
| PoolRuns.FastRound | dependencies/core/include/database/connection_pool_impl.h:109-117 | a session that takes the idle connection without a permit and brings it back leaves the pool with a permit more than before, everything else as it was |
| PoolRuns.OutgrowingRun | dependencies/core/include/database/connection_pool_impl.h:108-162 | any pool with a first permit, whatever its maximum, has a run that never has more than a given number of sessions at once and ends with that many holding a connection, as many live connections, and a permit left |
| PoolRuns.LateWarmupRun | dependencies/core/include/database/connection_pool_impl.h:43-79 | an eager pool has a run that never has more than a given number of sessions at once and ends with that many holding a connection and the initial connections live besides |
| PoolRuns.WarmedBound | dependencies/core/include/database/connection_pool_impl.h:43-79 | the fillers together make at most one connection each |
| PoolRuns.NothingCreated | dependencies/core/include/database/connection_pool_impl.h:11-30 | a pool whose two sizes are zero never has a connection |
| PoolProtocol.PermitStep | dependencies/core/include/database/connection_pool_impl.h:43-162 | each lock section and semaphore operation keeps the permit law |
| PoolProtocol.AwakeStep | dependencies/core/include/database/connection_pool_impl.h:43-162 | each keeps the law that a non-empty queue comes with a permit that is free or on its way back |
| PoolProtocol.PlacesStep | dependencies/core/include/database/connection_pool_impl.h:43-162 | each moves a connection from one place to another; only creation adds to its places and only destruction takes away |
| PoolProtocol.OwnedStep | dependencies/core/include/database/connection_pool_impl.h:43-162 | each keeps every live connection in exactly one place |
| PoolProtocol.EmptyQueueDemand | dependencies/core/include/database/connection_pool_impl.h:108-143 | with an empty queue, connections live or being created are covered one to one by sessions in demand and fillers carrying one |
| PoolProtocol.BoundedStep | dependencies/core/include/database/connection_pool_impl.h:108-143 | each step keeps the demand bound |
| PoolProtocol.MakingStep | dependencies/core/include/database/connection_pool_impl.h:108-143 | only a session that finds the queue empty with a permit in hand adds to the connections live or being created, warm-up aside |
| PoolWarmup.WarmupRun | dependencies/core/include/database/connection_pool_impl.h:34-79 | while an eager pool warms up, in every interleaving: a filler that tries for a permit finds one, at most one filler sees the queue full, and the pool is not announced before every filler has pushed (PoolWarmup.CalmIsValid shows that the second requirement follows from the first) |
| PoolWarmup.WarmupResult | dependencies/core/include/database/connection_pool_impl.h:34-79 | once all fillers have finished: the pool is ready, exactly one filler saw it full, the expansion happened once and just when the maximum is larger; and if no session has entered yet the queue holds init_size connections and there are max_size permits |
| PoolCalm.CalmSizeKeptIff | dependencies/core/include/database/connection_pool_impl.h:34-162 | an eager pool whose sessions come only once it is ready keeps to max_size in all runs if and only if the bound on simultaneous sessions does: the warm-up connections do not count against it |
| PoolCalm.CalmBound | dependencies/core/include/database/connection_pool_impl.h:34-162 | in those runs live and in-creation connections never outnumber the larger of init_size and the peak of sessions |
| PoolCalm.ConfinedStep | dependencies/core/include/database/connection_pool_impl.h:43-162 | each step keeps connections live, being created or still to be warmed up within that number |
| PoolCalm.CrowdedRun | dependencies/core/include/database/connection_pool_impl.h:34-147 | such a pool has a run with at most one session more than its size at once and as many connections |
| PoolCalm.WarmUpRun | dependencies/core/include/database/connection_pool_impl.h:34-79 | the warm-up can be gone through from the constructor to a ready pool with init_size queued connections and max_size permits |
| PoolReady.ReadyIff | dependencies/core/include/database/connection_pool_impl.h:34-92 | with fillers that are never stopped and never miss a permit that is there, an eager pool of any size is ready whenever its fillers have finished if and only if no session is let in before it is ready; a single one is enough to leave it unready |
| PoolReady.ReadyIffSeen | dependencies/core/include/database/connection_pool_impl.h:57-68 | in every run whatsoever, a pool whose fillers have finished is ready if and only if one of them pushed the connection that made the queue its initial size |
| PoolReady.NeverReady | dependencies/core/include/database/connection_pool_impl.h:83-88 | a pool that is not ready when its fillers have finished never will be, so waiting for it does not end |
| PoolReady.SoleFillerMisses | dependencies/core/include/database/connection_pool_impl.h:50-77 | a session takes the only permit of a pool with one filler, and the filler gives up |
| PoolReady.QueueStaysShort | dependencies/core/include/database/connection_pool_impl.h:57-68 | a session takes the first warm connection of a larger pool away, and the queue never reaches its initial size |
| PoolWarmup.FillerFindsPermit | dependencies/core/include/database/connection_pool_impl.h:50 | in every warm-up state a filler about to try finds a permit |
| PoolWarmup.SoleSeer | dependencies/core/include/database/connection_pool_impl.h:60-78 | what follows from seeing the queue full is done by the one filler that saw it |
| PoolWarmup.CalmIsValid | dependencies/core/include/database/connection_pool_impl.h:34-79 | every calm schedule is a run of the protocol |
| ConnectionPool.Pool.constructor | dependencies/core/include/database/connection_pool_impl.h:9-40 | a new pool is in the protocol's initial state: eager pools start init_size fillers, all others are expanded and ready at once |
| ConnectionPool.Pool.Acquire | dependencies/core/include/database/connection_pool_impl.h:102-147 | for every schedule of the other threads in its gaps: what the call does is a run of the protocol in which its own steps are one look, then the end of the wait or a permit, a second look and what came of it; it ends with the session holding what it got or gone, and what it got is live and no longer queued; past the first look it times out unless the deadline is ahead and the wait catches a permit, it creates only if creation works, and it fails only if not |
| ConnectionPool.Pool.Await | dependencies/core/include/database/connection_pool_impl.h:119-125 | from an empty queue on: without a timeout the deadline was ahead and the wait caught a permit; with one, the deadline had passed, the wait missed or there was no permit |
| ConnectionPool.Pool.TakeFront | dependencies/core/include/database/connection_pool_impl.h:109-117 | one lock section: the front connection if there is one, told apart by whether the session has a permit |
| ConnectionPool.Pool.TryPermit | dependencies/core/include/database/connection_pool_impl.h:119-125 | a permit is taken just when there is one, the deadline has not passed and the wait catches it; otherwise the session leaves |
| ConnectionPool.Pool.Finish | dependencies/core/include/database/connection_pool_impl.h:125-143 | from the permit on its own steps are a second look and giving the permit back, or a creation: then it gets a connection if and only if creation works, and otherwise the permit is given back |
| ConnectionPool.Pool.GiveBackConnection | dependencies/core/include/database/connection_pool_impl.h:154-162 | the releaser's own steps are the push under the lock and the release of a permit after it, in a run of the protocol whatever happens between |
| ConnectionPool.Pool.FillPool | dependencies/core/include/database/connection_pool_impl.h:42-79 | in a run of the protocol, a filler's own steps are a try and a failed creation for each turn that was to fail, and then the steps of the turn it ends in; if the turns run out it is back at the start |
| ConnectionPool.Pool.FillTurn | dependencies/core/include/database/connection_pool_impl.h:45-78 | a turn is a stop, a try that finds no permit, a failed creation that puts the permit back, or a creation, the push, the release and what follows; which one is decided by the stop request, the semaphore and the creation |
| ConnectionPool.Pool.CreateAndPush | dependencies/core/include/database/connection_pool_impl.h:51-63 | from the permit on, with other threads' steps while it creates and before it pushes or tries again, its own steps are the failed creation, or the creation, push and release and what follows |
| ConnectionPool.Pool.FinishFilling | dependencies/core/include/database/connection_pool_impl.h:57-77 | push and release, and for the filler that saw the queue full, and for it alone, the announcement and if the maximum is larger the one expansion |
| ConnectionPool.Pool.ExchangeExpanded | dependencies/core/include/database/connection_pool_impl.h:72 | the exchange lets exactly the caller that found the flag unset go on to release permits |
| ConnectionPool.HolderAlone | dependencies/core/include/database/connection_pool_impl.h:154-165 | a connection a session holds is live and not in the queue |
| Managers.ReleasedOnce | dependencies/core/include/database/connection_manager.h:19-51 | through any chain of moves, assignments and destructions each connection handed out is in one manager, or was returned once, or was destroyed once |
| Managers.PoolOutlivesManagers | dependencies/core/include/database/connection_pool_impl.h:151-165 | the pool is deleted once and exactly when no pointer to it is left; it exists while a manager has a releaser, through the running of that releaser, and until the releaser is destroyed, whatever other managers and pointers do in between; so a connection let go is put back into a pool that is there before and after |
| Managers.LostIffOverwritten | dependencies/core/include/database/connection_manager.h:24-51 | a step destroys a connection if and only if it assigns over another manager that still has one, and returns one if and only if it destroys such a manager |
| Managers.PlacesStep | dependencies/core/include/database/connection_manager.h:19-51 | each step leaves every handed-out connection in as many places as before, except handing out a new one |
| Managers.CapturedRun | dependencies/core/include/database/connection_pool_impl.h:152-164 | wrapping leaves one more pointer to the pool, the one the releaser captured, the local one being gone |
| ConnectionManager.Manager.Move | dependencies/core/include/database/connection_manager.h:19-23 | the new manager has connection and releaser, the source has neither |
| ConnectionManager.Manager.MoveAssign | dependencies/core/include/database/connection_manager.h:24-32 | the target's own connection is destroyed, not returned; self-assignment changes nothing |
| ConnectionManager.Manager.Release | dependencies/core/include/database/connection_manager.h:46-51 | the connection goes to the releaser's pool, with a permit, if there are both; otherwise it is destroyed |
| ManagerTable.Table.AssignOver | dependencies/core/include/database/connection_manager.h:24-32 | on any number of managers, the code does what the model's assignment does |
| ManagerTable.Table.Release | dependencies/core/include/database/connection_manager.h:46-51 | the same for letting the connection go: the pool's queue is what was returned, with a permit each, and the releaser stays |
| ManagerTable.Table.Destroy | dependencies/core/include/database/connection_manager.h:37-39 | destruction is that and then the end of the releaser |
| ConnectionManager.MoveChain | dependencies/core/include/database/connection_manager.h:19-51 | along a chain of managers of any length the earlier ones return nothing and the last has the connection and the pool |
| RefCounts.CountsExact | dependencies/core/include/core/memory/intrusive_ptr.h:31-121 | after every sequence of construction, copy, move, assignment, reset and destruction, aliasing ones included: an object's count is the number of pointers to it, it was deleted at most once, and a deleted one has no pointers |
| RefCounts.DeletedIffLastDropped | dependencies/core/include/core/memory/intrusive_ptr.h:34-40 | an operation deletes an object if and only if it takes away the last pointer to it |
| RefCounts.PointerStep | dependencies/core/include/core/memory/intrusive_ptr.h:56-121 | how each operation changes the number of pointers to an object, both operands possibly the same pointer |
| RefCounts.PointersStep | dependencies/core/include/core/memory/intrusive_ptr.h:56-121 | the number of pointers to an object grows by what the operation's target gains and shrinks by what it drops |
| RefCounts.ExactAtStep | dependencies/core/include/core/memory/intrusive_ptr.h:31-121 | each operation keeps an object's count exact and its deletions at most one |
| RefCounts.SettledStep | dependencies/core/include/core/memory/intrusive_ptr.h:34-40 | once an object has been pointed to it stays deleted exactly while nothing points to it |
| RefSteps.SharedCountsExact | dependencies/core/include/core/memory/intrusive_ptr.h:31-121 | with assignments, resets and destructions of many threads interleaved in their atomic parts: the count is the references at rest and under way; a referenced object is not deleted and nobody is about to delete it; one without was deleted once, or exactly one thread is about to |
| RefSteps.NeverStuck | dependencies/core/include/core/memory/intrusive_ptr.h:72-116 | an operation under way can always go on: what it is about to drop is neither deleted nor about to be, and what it takes over is still its own to take |
| RefSteps.Completed | dependencies/core/include/core/memory/intrusive_ptr.h:72-116 | whatever the threads do in between: an assigned or reset pointer ends with the target it gained, a move-assigned one with what its source held, the source null, and a destroyed one is no more |
| RefSteps.LawStep | dependencies/core/include/core/memory/intrusive_ptr.h:31-121 | each increment, decrement, deletion and store keeps that law |
| RefSteps.LinkedStep | dependencies/core/include/core/memory/intrusive_ptr.h:87-94 | each keeps the source of a move assignment lent to that assignment alone |
| PointerArena.Arena.AssignCopy | dependencies/core/include/core/memory/intrusive_ptr.h:72-81 | on any number of objects and pointers, the code does what the model's copy assignment does, aliasing included |
| PointerArena.Arena.AssignMove | dependencies/core/include/core/memory/intrusive_ptr.h:87-94 | the same for move assignment |
| PointerArena.Arena.Reset | dependencies/core/include/core/memory/intrusive_ptr.h:103-109 | the same for reset |
| PointerArena.Arena.Destroy | dependencies/core/include/core/memory/intrusive_ptr.h:66 | the same for destruction |
| IntrusivePtr.RefCounted.Release | dependencies/core/include/core/memory/intrusive_ptr.h:34-40 | one less, and whether that was the last |
| IntrusivePtr.Pointer.DecrementRef | dependencies/core/include/core/memory/intrusive_ptr.h:111-116 | the object loses one and is deleted just when the count was one; the pointer ends null |
| IntrusivePtr.Pointer.AssignCopy | dependencies/core/include/core/memory/intrusive_ptr.h:72-81 | assigning between two pointers to one object neither changes its count nor deletes it; otherwise the new target gains one and the old loses one |
| IntrusivePtr.Pointer.AssignMove | dependencies/core/include/core/memory/intrusive_ptr.h:87-94 | the old target loses one, the source's is taken over uncounted and the source ends null; self-assignment changes nothing |
| IntrusivePtr.Pointer.Reset | dependencies/core/include/core/memory/intrusive_ptr.h:103-109 | resetting to the present target neither changes its count nor deletes it |
| IntrusivePtr.Pointer.Move | dependencies/core/include/core/memory/intrusive_ptr.h:83-85 | the target changes hands without being counted |
| ClientRuns.AnsweredInOrder | src/postgres_priv.cpp:15-49 | at every moment of every run: the accepted requests are the answered ones, then those in the worker's hands, then the pending ones, in order; none is answered twice |
| ClientRuns.WorkerExit | src/postgres_priv.cpp:81-153 | when the worker has left: shutting-down went to exactly the requests a drain swapped out and to none if it left at the loop head; the unanswered are exactly the pending rest, in order |
| ClientRuns.DrainAnswersAll | src/postgres_priv.cpp:111-124 | leaving through the drain answers exactly the requests accepted before the queue was swapped out, and those still queued then with shutting-down |
| ClientRuns.StopLosesIff | src/postgres_pub.cpp:28-33 | for the moment the destructor is called: in every continuation each request accepted by then is answered before the worker leaves, if and only if none is queued or the worker is at its wait (with no heartbeat ahead of it) |
| ClientRuns.LosingRun | src/postgres_priv.cpp:85-110 | otherwise there is a continuation in which the worker finishes what it is at and leaves at the loop head, the queued requests unanswered |
| ClientRuns.AllAssured | src/postgres_priv.cpp:111-124 | with none queued, or the worker at its wait, no continuation loses a request |
| ClientRuns.AtMostOnce | src/postgres_priv.cpp:51-79 | a callback never runs twice, nor with an outcome its request was not answered with |
| ClientRuns.AllCallbacksRan | src/postgres_pub.cpp:28-46 | when the destructor is through, every callback handed to the pool has run exactly once, with its request's outcome, whether queued or on a thread of its own |
| ClientRuns.HeadExitLeavesPending | src/postgres_priv.cpp:85 | a run in which stop is requested while a request executes: the worker leaves at the loop head and an accepted request stays unanswered |
| ClientProtocol.ConservedStep | src/postgres_priv.cpp:81-153 | each step keeps accepted = answered, in hand, pending, in order |
| ClientRuns.OutcomesStep | src/postgres_priv.cpp:111-151 | each step keeps shutting-down for exactly what was swapped out |
| ClientRuns.KeptStep | src/postgres_priv.cpp:51-79 | each step keeps every posted callback in exactly one place: run, queued, being run or with its own thread |
| ClientRuns.CountedStep | src/postgres_priv.cpp:155-171 | the idle counter is the number of callback workers between counting themselves and taking a task |
| ClientRuns.OrderedStep | src/postgres_pub.cpp:28-46 | a callback worker has left only when told to and with the queue empty; nothing is queued for a pool without workers; the destructor's order holds |
| ClientRuns.ThreadsStep | include/database/postgres_client.h:139-147 | an overflow thread is erased only once listed and finished, is unlisted only while the worker is about to list it, and has finished when the list was cleared |
| ClientRuns.FirstInFirstOut | src/postgres_priv.cpp:74-167 | callbacks do not overtake each other in the queue: those put in are those the workers got out, in order, and then those still in |
| ClientRuns.PostedOnce | src/postgres_priv.cpp:132-151 | a request's callback is posted at most once, and with the outcome the request was answered with |
| PostgresClient.Client.Connect | src/postgres_pub.cpp:48-67 | a connected client is in the protocol's initial state, which satisfies every law above |
| PostgresClient.Client.Enqueue | src/postgres_priv.cpp:31-48 | both entry points append one request to the queue's end |
| PostgresClient.Client.ReapOverflowThreads | include/database/postgres_client.h:139-147 | exactly the listed threads that have finished are erased, and nothing else changes |
| PostgresClient.Client.TakeOrDrain | src/postgres_priv.cpp:111-130 | behind the wait: stop swaps out the whole queue, else the front is taken, else nothing happens |
| PostgresClient.Client.ChooseRoute | src/postgres_priv.cpp:56-73 | the queue is chosen if and only if the idle counter is not zero |
| PostgresClient.Client.PostCallback | src/postgres_priv.cpp:51-79 | its own steps are the look at the idle counter and the push, or if it was zero the listing of a thread, in a run of the protocol whatever happens between; there is one answer more |
| PostgresClient.Client.DrainOne | src/postgres_priv.cpp:115-122 | one delivery of a drain: its own steps, whatever other threads do before it and in it, and one shutting-down answer more |
| PostgresClient.Client.DrainAll | src/postgres_priv.cpp:111-124 | the swapped-out requests are delivered one by one, each by one of its routes; the answers are theirs, in order, all shutting-down, and no others |
| PostgresClient.Client.WorkerTurn | src/postgres_priv.cpp:85-152 | whatever the other threads do, a turn's own steps are those of one kind of round (leaving, a heartbeat, a wait not over, a wait that lapsed, serving the front request, or draining), it answers exactly what that round answers, and it ends where that round ends |
| PostgresClient.Client.ServeOrDrain | src/postgres_priv.cpp:111-151 | behind the wait: told to stop it drains the whole queue, else it serves the front request, else the wait has lapsed |
| PostgresClient.Client.QueryWorker | src/postgres_priv.cpp:81-153 | the worker goes through one round for each turn, answers what they answer and nothing else, and stops early only by leaving or where it waits with nothing to do |
| PostgresClient.Client.TakeCallback | src/postgres_priv.cpp:163-167 | behind the wait a callback worker leaves if and only if the queue is empty, else takes its front |
| PostgresClient.Client.CallbackTurn | src/postgres_priv.cpp:158-169 | a turn's own steps are counting itself idle, taking a callback or leaving, and running it; it is left waiting only with nothing queued and no stop request |
| PostgresClient.Client.CallbackWorker | src/postgres_priv.cpp:155-171 | it serves a callback in each turn until it waits or leaves; it leaves only when told to stop and with nothing queued |
| PostgresClient.Client.Destroy | src/postgres_pub.cpp:28-46 | the destructor's own steps are its five in their order, the stop request always, in a run of the protocol; it stops short only before a join that is not possible yet; when all come through, every answered request's callback has run exactly once |
| TransactionProtocol.LogShape | src/transaction.cpp:11-61 | in every interleaving of execute, commit, rollback, move and destruction the requests sent are BEGIN, statements, at most one terminator and nothing after it; one handle owns the transaction, and once that one is destroyed, whatever moved-from handles are left, there is exactly one terminator, of the kind that closed the transaction |
| TransactionProtocol.CommitIff | src/transaction.cpp:34-61 | COMMIT is sent only if a commit found its handle active, and once the owner is destroyed the log ends with COMMIT if one did and with ROLLBACK if not |
| TransactionProtocol.SoundStep | src/transaction.cpp:11-61 | each lock section and send keeps one owner, its terminator unsent or at the log's end, and nothing after it |
| TransactionProtocol.OrderReachesExecution | include/database/transaction.h:23-52 | however transactions and plain queries interleave on a client, each prefix of what they send contains of each transaction nothing or a well-shaped prefix of its log |
| TransactionOrder.AnsweredInTransactionOrder | src/postgres_priv.cpp:15-49 | in every run of the client and its transactions together, each send being a submission: the answered requests are the first ones accepted, in order, and contain of each transaction nothing or a well-shaped prefix of its log; BEGIN and terminators are waited for |
| TransactionOrder.MatchedStep | src/postgres_priv.cpp:15-49 | each step keeps accepted and sent requests one to one |
| Transaction.TransactionHandle.Execute | include/database/transaction.h:28-34 | an active transaction appends one request under its lock, a closed one none; this is the protocol's step |
| Transaction.TransactionHandle.Close | src/transaction.cpp:34-41 | exactly the call that finds the transaction active closes it |
| Transaction.TransactionHandle.End | src/transaction.cpp:34-61 | whatever statements and endings other threads try between the unlock and the send, in any order, an active handle's commit appends COMMIT and nothing else, its rollback ROLLBACK, and a closed one nothing; these are the protocol's steps |
| Transaction.TransactionHandle.Destroy | src/transaction.cpp:18-32 | an active owner ends rolled back and sends ROLLBACK; a closed or moved-from handle sends nothing and keeps its state; these are the protocol's steps |
| Transaction.TransactionHandle.Move | src/transaction.cpp:11-16 | the new handle has executor and state; the source keeps its state and loses its executor |
| Transaction.CreateTransaction | src/postgres_pub.cpp:8-15 | BEGIN is sent first; when it fails no handle is returned and ROLLBACK has followed |
| SqlParser.ParseStatements | include/database/internal/sql_parser.h:14-94 | the one-pass scanner returns, for every script, the specification's statements: tokens, cut at separators, laid out with single spaces |
| SqlParser.ScanToken | include/database/internal/sql_parser.h:38-90 | one turn of the loop consumes exactly the first token of the rest and updates the collected text by it |
| SqlParser.TakeLiteral | include/database/internal/sql_parser.h:54-69 | a literal is collected verbatim, doubled quotes included, up to its closing quote or the script's end |
| SqlParser.SkipBlockComment | include/database/internal/sql_parser.h:45-53 | skips to behind the first terminator, or, if there is none, to the last character of the script or its end; this is what the first token takes |
| SqlParser.SkipLineComment | include/database/internal/sql_parser.h:40-44 | skips to, not over, the next line feed or the end of the script; this is what the first token takes |
| SqlParser.ScanMeansParse | include/database/internal/sql_parser.h:24-36 | collecting text, spaces and flushes as the scanner does gives each statement's layout, trimmed |
| SqlParser.ScanPieces | include/database/internal/sql_parser.h:24-90 | the invariant behind it: what is collected is the layout of the pieces so far, with a pending space unless after an opening parenthesis |
| SqlTokens.TokeniseLossless | include/database/internal/sql_parser.h:38-93 | the token texts concatenate back to the script |
| SqlLaws.LineCommentInvisible | include/database/internal/sql_parser.h:40-44 | at the start or after a blank, a line comment reaches exactly to the next line feed or the end of the script: without it the statements are the same, whatever comes before and after |
| SqlLaws.UnterminatedBlock | include/database/internal/sql_parser.h:45-53 | a block comment that is never closed counts for nothing but the script's last character, which is scanned as code |
| SqlLaws.BareBlock | include/database/internal/sql_parser.h:45-53 | with nothing behind its opening it leaves nothing |
| SqlLaws.BlanksCollapse | include/database/internal/sql_parser.h:70-74 | outside literals and comments any run of spaces, tabs and line ends counts as one space, whatever comes before and after |
| SqlLaws.OpenCloseUp | include/database/internal/sql_parser.h:24-27 | blanks behind an opening parenthesis count for nothing, whatever comes before and after |
| SqlLaws.CloseCloseUp | include/database/internal/sql_parser.h:76-81 | blanks before a closing parenthesis count for nothing, whatever comes before and after |
| SqlLaws.WordsAndLiterals | include/database/internal/sql_parser.h:54-94 | words and literals with any blanks around and between them come out as one statement, each verbatim, with one space between any two; a literal is any text at all with its quotes doubled, so separators and comment marks in it do not count |
| SqlLaws.ContentKept | include/database/internal/sql_parser.h:14-94 | nothing is lost or reordered and nothing added but blanks: the statements' visible characters are those of the script's code and literals, in order |
| SqlNormal.CommentsVanish | include/database/internal/sql_parser.h:40-53 | a script parses as a comment-blind character machine runs on its text with the comments deleted |
| SqlNormal.IdempotentScriptIff | include/database/internal/sql_parser.h:14-94 | parsing a script's statements again changes none of them if and only if, in the script with its comments deleted, no two adjacent characters outside quotes open a comment |
| SqlNormal.JoinRoundTripIff | include/database/internal/sql_parser.h:14-94 | the statements of a script, joined by separators, parse back to exactly themselves if and only if the same holds of it |
| SqlNormal.SomeOutputOpens | include/database/internal/sql_parser.h:54-89 | a pair that opens a comment, once put together by deleting one, survives blank normalisation and trimming into some statement |
| SqlNormal.RunNoisy | include/database/internal/sql_parser.h:54-89 | such a pair is in a finished statement or in the collected text at every later moment of the scan |
| SqlNormal.IdempotentIff | include/database/internal/sql_parser.h:14-94 | an output statement parses to itself if and only if no comment token is in it |
| SqlNormal.CommentFreeIff | include/database/internal/sql_parser.h:40-47 | there is no comment token if and only if no two adjacent characters outside quotes open one |
| SqlNormal.NormalForm | include/database/internal/sql_parser.h:24-36 | every statement parses to itself when deleting the script's comments puts no opening pair together, so in particular when it has none (SqlNormal.CommentFreeUnglued) |
| SqlNormal.OutputsCommentFree | include/database/internal/sql_parser.h:70-83 | normalising blanks never puts two characters together that open a comment |
| SqlNormal.CommentShortens | include/database/internal/sql_parser.h:40-53 | a text with a comment in it never parses back to the statements it was joined from |
| SqlNormal.OutputsFinal | include/database/internal/sql_parser.h:24-36 | every output is a text the machine leaves as it is, without a trailing blank, and only the last can end inside a literal |
| SqlNormal.StripLength | include/database/internal/sql_parser.h:40-53 | deleting comments leaves a text as it is if and only if it has none |
| SqlCompose.SplitAtSeparatorIff | include/database/internal/sql_parser.h:29-36 | a script can be cut at a separator, with every continuation, if and only if the part before it ends outside literals and comments |
| SqlCompose.SplitAtSeparator | include/database/internal/sql_parser.h:82-87 | the statements of the whole are then those of the two parts, in order |
| SqlCompose.CommentInvisible | include/database/internal/sql_parser.h:45-75 | a closed block comment put after a blank outside literals and comments never changes the statements, whatever follows |
| SqlCompose.CommentGlue | include/database/internal/sql_parser.h:45-53 | a script whose one statement parses to nothing: deleting a comment joined two hyphens |
| SqlCompose.LiteralsSurvive | include/database/internal/sql_parser.h:54-69 | each statement contains the literals of its part of the script verbatim, disjoint and in order; only an unclosed last one may lose trailing blanks |
| SqlCompose.TokeniseAppend | include/database/internal/sql_parser.h:38-93 | tokens of a concatenation are those of its parts when the first ends in code and the second cannot continue its last token |
| Numeric.EncodeNumericUint64 | include/database/internal/type_detail.h:181-213 | the encoder's loops compute the message: count, weight, sign, scale and the base-10000 groups without trailing zero groups; zero gives the two bytes its initialiser lists |
| Numeric.AsUint64 | include/database/result/colunm.h:191-220 | for every column, wire data of any kind: the decoder's loops compute the digits' sum at their weight modulo 2^64, or nothing where the code refuses; so a whole number is read exactly when it is below 2^64 (Numeric.ReadExactIff) |
| Numeric.WireMeaning | include/database/result/colunm.h:197-219 | a type 1700 column whose first three two-byte fields are the count, the weight and a zero sign reads as its two-byte groups at powers of ten thousand, modulo 2^64 |
| Numeric.WireRefused | include/database/result/colunm.h:191-208 | exactly what is refused: null, another type, a short header, a sign, too few bytes, a count above 32767 other than the last four, which read as zero |
| Numeric.PlaceValue | include/database/result/colunm.h:210-218 | a group at a weight counts that power of ten thousand; zero is encoded as the bytes 8 and 0 |
| Numeric.ReadDigits | include/database/result/colunm.h:210-214 | the wrapping digit loop is the positional sum modulo 2^64 |
| Numeric.NumericRoundTripIff | include/database/internal/type_detail.h:181-213 | decoding the encoder's bytes gives the value back if and only if it is not zero |
| Numeric.NothingWraps | include/database/result/colunm.h:210-218 | while an encoded value is decoded no partial result exceeds it, so nothing wraps |
| Numeric.MessageFields | include/database/internal/type_detail.h:204-212 | an encoded message has the count in its first two bytes, then the weight, a zero sign, a zero scale, and the groups, two bytes each; the decoder finds them there |
| Numeric.EncodedFields | include/database/internal/type_detail.h:187-202 | the groups that are kept, at the encoded weight, add up to the value; there are at most five |
| Numeric.GroupsSum | include/database/internal/type_detail.h:189-193 | the groups, most significant first, add up to the value |
| Numeric.GroupCount | include/database/internal/type_detail.h:195-196 | a 64-bit value has one to five groups |
| Bytes.EncodeFixedValue | include/database/internal/type_detail.h:161-176 | swapping and storing on a little-endian host writes the two's-complement pattern most significant byte first |
| Bytes.BigValueFirst | include/database/result/colunm.h:32-39 | the first byte of a value weighs most |
| Bytes.SignedRoundTrip | include/database/internal/type_detail.h:171-176 | any value that fits a signed width is read back from its bytes |
| Bytes.ReadBigEndian | include/database/result/colunm.h:32-39 | the byte-reversing copy loads the big-endian value of the bytes at the offset |
| Params.IntegerRoundTripIff | include/database/internal/type_detail.h:77-106 | a C++ integer, widened, encoded and read back as its own type, comes back if and only if it is wider than eight bits and not the 64-bit unsigned zero |
| Params.SignedReadIff | include/database/result/colunm.h:77-108 | a signed read of any stored integer gives its value if the type is wide enough, else nothing |
| Params.StoredFits | include/database/internal/type_detail.h:94-104 | widening to the next signed type loses no value, and the bytes have the chosen width |
| Params.TimestampWire | include/database/internal/type_detail.h:246-252 | a time goes over the wire as the microseconds since 946684800 seconds after the host's epoch, and columns of types 1114 and 1184 are read so |
| Params.IntegerWire | include/database/result/colunm.h:77-182 | 16, 32 and 64-bit integers go under types 21, 23 and 20 as that many big-endian two's-complement bytes; who reads them, as which value, and who does not |
| Params.StoredAs | include/database/internal/type_detail.h:94-104 | the type number and width each C++ integer type goes under |
| Params.OthersRefused | include/database/result/colunm.h:77-182 | each reader takes exactly its type numbers and widths, and no null |
| Params.TimestampRoundTrip | include/database/internal/type_detail.h:246-252 | every 64-bit nanosecond time point comes back rounded toward zero to microseconds, unchanged if and only if it had no finer part |

## Left out

- Sockets, libpq, `poll`, reconnecting and the two attempts of `ExecuteWithRetry`: executing a query is an input that succeeds or fails.
- Clocks and durations: timeouts and heartbeats are choices; a filler's pause between attempts takes no step.
- Liveness: no claim that a waiting thread is woken, that shutdown comes to an end, or that a stop request and its notification are not missed.
- Weak memory: steps are sequentially consistent, including the release of the final reference.
- Big-endian hosts: `ToNetworkOrder` returns nothing there.
- Float and double bits, text, bytea, bool and null parameters and their readers, text timestamps, and the buffer-filling loop of `MakePgParamBuffer`.
- Fractions and negative NUMERIC values: groups below the units are read as if they were whole, as the code does, and a non-zero sign is refused; no numeric meaning is claimed for the former.
- Dollar quoting, double-quoted identifiers and nested comments: the scanner does not know them, so nothing is claimed about what such a script means to the server.
- Characters are Dafny characters; the scanner treats bytes above 127 like any other, and so does the model.
- The 32-bit reference counter's wrap-around: in `RefCounts` and `RefSteps` a pointer may be made only while there is room for one more; `IntrusivePtr` counts without bound.
- The semaphore's greatest value, and the pool's destructor, `wait_for_warmup` and wake-ups: a pool is never stopped except that a filler may see the stop request.
- A session's timed wait for a permit is one step: it takes a permit or gives up.
- Uses of a moved-from transaction handle while it is active, and moving or destroying a handle while another of its operations is under way: callers must not.
- A failed `connect`: the client's threads start together, and its callback workers are told to stop in one step.
- Erasing an overflow thread's list entry marks it, so that entries keep their places.
- Moves of `query_request` inside the client: a request is a value, and its source is not used again.
- Callbacks are not modelled beyond being run: one that submits further requests is the submission step at any time.
- The pool behind a manager is its queue and permits in `ConnectionManager`, and an object of the pointer heap in `Managers`; a hand-out there is a ticket, not the session of `PoolProtocol`.
- The connection factory and its registry, error classes, `GetDatabaseUrl`, the file reading of `Migrate`, and building tables and rows.
- Numeric.AsUint64: assumes the data is no longer than a 32-bit int can say, which is how a column is built.
- Params.TimestampRoundTrip: reading a time outside what 64-bit nanoseconds can hold is not covered; the model does not wrap there.
- TransactionProtocol.LogShape: one created transaction whose BEGIN succeeded; a failed one is `Transaction.CreateTransaction`.
- RefSteps.SharedCountsExact: one pointer is used by one thread at a time, except that others may copy from it while it is at rest, and a raw pointer handed in names an object that has a pointer or never had one.
