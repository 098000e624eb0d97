# Verified model of the task schedulers' hard core

Three parts of the repository are modelled and proved:

1. **The Chase-Lev deque** (`include/wss/chase_lev_deque.hpp`), twice. `DequeProtocol.dfy` is a step machine: one
   owner and any number of thieves, one atomic access a step, with every replaced buffer kept because a thief may
   still be reading it. `DequeProof.dfy` holds its inductive invariant, `DequeTheorems.dfy` and `DequeBounds.dfy` what
   follows for every run. `DequeHeap.dfy` is the same class on the heap, run by one thread at a time, with its slot
   arrays, its grow loop and `round_up_pow2`.
2. **The fair scheduler** (`src/fair_scheduler.cpp`). `FairState.dfy` has one function for each block the mutex
   protects; `FairAgreement.dfy`, `FairOrder.dfy`, `FairShare.dfy`, `FairTheorems.dfy` and `FairStarvation.dfy` prove
   the queuing bounds for every interleaving of those blocks; `FairContents.dfy` says what the classes hold: which
   exist, their jobs' order and their accounts; `FairScheduler.dfy` is the class, whose methods are proved to be those
   functions; `FairLoop.dfy`, `FairLoopProof.dfy` and `FairBlocks.dfy` add the threads, the pending counter, the
   doorbell and shutdown, and `FairProgress.dfy` bounds how long they take to come to rest.
3. **The work-stealing pool** (`src/work_stealing_scheduler.cpp`, `src/injector.cpp`, `include/wss/idle_signal.hpp`).
   `Pool.dfy` is a step machine of workers, clients and the shutdown call over atomic deques, injectors and the
   doorbell; `PoolProof.dfy`, `PoolBell.dfy`, `PoolJobs.dfy` hold its invariant and `PoolTheorems.dfy` what follows;
   `PoolOrder.dfy` says in which order the injectors hand out jobs, `PoolProgress.dfy` bounds how long the pool takes
   to come to rest and says what it has done by then. `PoolOnDeques.dfy` is the same machine with every local deque
   replaced by the protocol of part 1, one access a step; `PoolRefinement.dfy` and `PoolBacked.dfy` prove that it
   refines `Pool.dfy`, so that the pool's theorems hold of it, and that its deques never grow. That a refinement does
   not do less than it should is the other half: `PoolAccess.dfy` shows that no access is for nothing,
   `PoolBackedSearch.dfy` that an undisturbed search on the deques, access by access, finds what `find_task` finds, and
   `PoolBackedProgress.dfy` that the pool on the deques neither deadlocks nor livelocks and that its shutdown completes.
   `PoolDeques.dfy` relates the pool's steps to the atomic deque;
   `PoolSearch.dfy` has `find_task` as loops over mutable queues, what it finds, and its agreement with the step
   machine; `PoolInversion.dfy` is a run in which a normal job goes before a high one; `InjectorHeap.dfy` has the
   batch pull into a heap deque and the doorbell's counter.

`RingIndex.dfy` (masking), `Sums.dfy` (counting), `Sequences.dfy` (concatenation), `Doorbell.dfy` (threads that owe an
announcement) and `Options.dfy` are shared.

## Reading the theorems

- **Interleavings.** A thread is a program counter; a step is one atomic access, one mutex-held block, or one job moved
  by a batch pull while its mutex is held. Runs are arbitrary finite schedules, of any length, with any number of
  threads. Memory is sequentially consistent: the theorems are about interleavings, and nothing here transfers to
  relaxed or acquire/release hardware behaviour (push's store of `bottom` is relaxed at
  `include/wss/chase_lev_deque.hpp:86`).
- **The queue a deque state stands for** is the items from `top` to a logical bottom: `bottom`, or one more between a
  pop's decrement and its decision. A `steal` may return nothing without the deque being empty, because pop restores
  `bottom` before its compare-exchange: one thief can see the lowered `bottom` and give up, and another thief that
  begins afterwards can win that same item while the pop comes away empty. `GivingUpOnAnItemHappens` is that run, from
  a new deque; `NothingIsNotEmpty` says that no linearisation of it obeys a deque whose steal returns nothing only when
  empty; `GivingUpOnAnItem` says exactly when a steal gives up on a non-empty queue. A pop that returns nothing saw an
  empty deque.
- **Boxes** are numbered as they are allocated, so a box stands for the item pushed in it. `fault` records a null
  dereference, a use or free of a freed box, and a negative index; it is proved to stay false. A thief that won its
  exchange always holds a box (`ClaimIsReturned`), so the null branch of `include/wss/chase_lev_deque.hpp:137-139` is
  dead.
- **Fair scheduler.** Times, weights and vruntimes are reals. `Fair.running` says which class each worker's job belongs
  to; the program keeps it in a local variable. A job's cost is any non-negative real, bounded by `D` (or from below by
  `d`) only where a theorem says so. The floor and the invariant hold in every state that a run from the start reaches
  (`KeysOrdered`, `RunFair`), and the threads only move the core by its own moves (`ScheduleRunsCore`), so the bounds
  hold of the running scheduler.
- **Shutdown.** Clients have returned from `submit` before shutdown begins and do not call it again; job bodies may
  submit at any time, also during shutdown, to any depth. Bodies do not throw out of the wrapper and do not wait for
  other jobs. Completion is stated from the call: a thread that is there to call shutdown, at whatever point of its
  call, is enough for there to be a way to all workers gone, and in a state where nobody can move it is at its joins.
- **Progress** is proved for schedules in which no new call of `submit` begins; calls already begun go on. A step is
  effective if it changes the state; a thread that finds a mutex taken, and a sleeper, take steps that are not.
- **Undisturbed** searches and thefts are those during which no other thread moves, begun at any moment of any run at
  which nobody stands in the way: no other worker holds an injector's mutex, no other owner's pop is contesting the one
  item left in its deque, and what the searcher has already read of `top` still holds (`Clear`). The middle condition is
  the exact one: in its place a theft gives up on a job (`GivingUpOnAnItem`).
- **Announcements.** A submitter owes one between its insertion and the end of its `notify`; a worker owes one after a
  job, and the shutdown call after setting its flag. Sleeping workers miss no work whenever no *submitter* owes one;
  that they miss no shutdown is said when nobody owes one.

Where the documentation and the code disagree the model follows the code. `include/wss/injector.hpp:16-18` and the
repository's `README.md:100` say that workers come to an injector after every peer's deque; `find_task` searches the
injectors first. `include/wss/priority.hpp:8-10` says workers always prefer high-priority work at every stage; that
is so within a stage, but local deques of lower priority go before a high-priority injector. `HighIsPassedOver` states
exactly when an undisturbed search passes a waiting high-priority job over, `NormalGoesFirst` is a reachable state in
which one does, and `BoundedInversion` says how many lower jobs can go first.

## Model

| member | source | states |
|---|---|---|
| `DequeTheorems.StepRefines` | include/wss/chase_lev_deque.hpp:69-143 | every step of push, grow, pop or steal, by any thread at any moment, keeps the invariant and is a stutter or one atomic operation: push or pop at the bottom, steal at the top; pop reports empty only when the queue is empty |
| `DequeTheorems.RunRefines` | include/wss/chase_lev_deque.hpp:69-143 | every run produces the trace of a run of the atomic deque |
| `DequeTheorems.AtomicConserves` | include/wss/chase_lev_deque.hpp:69-143 | along any run of the atomic deque, what was there and what was pushed is what was popped, stolen and left |
| `DequeTheorems.ExactlyOnce` | include/wss/chase_lev_deque.hpp:56-177 | from a new deque, pushed boxes are pairwise different and are exactly the popped, the stolen and the queued ones; no use after free, double free, null dereference or negative index ever happens |
| `DequeTheorems.ClaimIsReturned` | include/wss/chase_lev_deque.hpp:104-142 | the thread whose step took a box from the queue keeps it until its own step frees it, live until then, and returns it; a pop that found nothing, or a steal that gave up, returns nothing |
| `DequeTheorems.ClaimIsSafe` | include/wss/chase_lev_deque.hpp:103-142 | while any other thread steps, a claim stays with its thread and its box stays allocated: nobody else frees it |
| `DequeTheorems.StaleReadIsExact` | include/wss/chase_lev_deque.hpp:128-142 | the pointer a thief holds when its exchange can still win is the oldest queued box, however stale the buffer it was read from |
| `DequeTheorems.LastItemIsExact` | include/wss/chase_lev_deque.hpp:103-117 | when the owner's exchange can win, the queue is the one item it read |
| `DequeTheorems.GivingUpOnAnItem` | include/wss/chase_lev_deque.hpp:120-136 | a steal that gives up, either way, faces a non-empty queue exactly when `top` is below `bottom` or a pop that has lowered `bottom` onto the one item has not yet restored it; on the indices it gives up only in the second case, and its exchange fails only if another's has won since it began |
| `DequeTheorems.GivingUpOnAnItemHappens` | include/wss/chase_lev_deque.hpp:91-136 | a run of a new deque: an item is pushed, one thief's steal returns nothing, another thief begins and wins that item, and the pop comes away empty |
| `DequeTheorems.NothingIsNotEmpty` | include/wss/chase_lev_deque.hpp:120-136 | no linearisation in which a steal that gave up comes before the steal that took an item, with no push of it between, obeys a deque whose steal gives up only when empty |
| `DequeProof.OwnerLayout` | include/wss/chase_lev_deque.hpp:69-117 | the owner's steps keep the live window in the current buffer readable and every thief's pending read exact, through growth and slot reuse |
| `DequeProof.OwnerOwned` | include/wss/chase_lev_deque.hpp:69-117 | the owner's steps keep every live box queued or claimed by exactly one thread |
| `DequeProof.ThiefLayout` | include/wss/chase_lev_deque.hpp:120-143 | the same for the layout, by a thief's steps |
| `DequeProof.ThiefOwned` | include/wss/chase_lev_deque.hpp:120-143 | the same for ownership, by a thief's steps |
| `DequeBounds.FailuresBounded` | include/wss/chase_lev_deque.hpp:104-136 | over any run, failed exchanges number at most the successful ones times the other threads |
| `DequeBounds.OwnerAttempt` | include/wss/chase_lev_deque.hpp:91-112 | the owner's exchange fails only in an attempt during which a thief's exchange succeeded |
| `DequeBounds.ThiefAttempt` | include/wss/chase_lev_deque.hpp:121-136 | a thief's exchange fails only in an attempt during which another thread's exchange succeeded |
| `DequeBounds.MemoryBounded` | include/wss/chase_lev_deque.hpp:158-177 | all buffers ever allocated add up to less than twice the current capacity, which is at most the larger of the initial one and twice the peak size |
| `DequeBounds.HalfFullNeverGrows` | include/wss/chase_lev_deque.hpp:74-76 | a deque that has never been more than half full has retired no buffer |
| `DequeBounds.PeakIsLargestSize` | include/wss/chase_lev_deque.hpp:69-117 | the peak of that bound is the largest size the queue has had |
| `DequeBounds.DestructorFreesAll` | include/wss/chase_lev_deque.hpp:56-66 | once nobody uses the deque, its destructor frees every remaining box, each once, and no other |
| `RingIndex.MaskIsModulus` | include/wss/chase_lev_deque.hpp:153-155 | for a power-of-two capacity, masking with capacity - 1 is the remainder |
| `RingIndex.WindowIsInjective` | include/wss/chase_lev_deque.hpp:153-155 | indices less than a capacity apart have different slots |
| `DequeHeap.RoundUpPow2` | include/wss/chase_lev_deque.hpp:158-164 | the least power of two not below the argument |
| `DequeHeap.Buffer.Slot` | include/wss/chase_lev_deque.hpp:146-156 | the masked index is the remainder and is inside the array |
| `DequeHeap.ChaseLevDeque.constructor` | include/wss/chase_lev_deque.hpp:47-51 | an empty deque whose capacity is the least power of two not below the one asked, its buffer the one recorded |
| `DequeHeap.ChaseLevDeque.Grow` | include/wss/chase_lev_deque.hpp:167-177 | doubles the capacity, keeps the contents and the old buffers |
| `DequeHeap.ChaseLevDeque.Push` | include/wss/chase_lev_deque.hpp:69-87 | appends the item; the buffer is replaced exactly when it was full |
| `DequeHeap.ChaseLevDeque.Pop` | include/wss/chase_lev_deque.hpp:90-117 | removes and returns the newest item, or nothing if empty |
| `DequeHeap.ChaseLevDeque.Steal` | include/wss/chase_lev_deque.hpp:120-143 | removes and returns the oldest item, or nothing if empty |
| `DequeHeap.ChaseLevDeque.Destroy` | include/wss/chase_lev_deque.hpp:56-66 | frees exactly the contents, oldest first |
| `FairAgreement.StepAgrees` | src/fair_scheduler.cpp:28-122 | after every locked block, a class has an entry exactly when it has work, then exactly one entry names it; names and ids are inverse; classes keep name and weight |
| `FairAgreement.InsertPosition` | src/fair_scheduler.cpp:74-80 | an entry goes after those of equal or smaller keys and before those of larger ones, and moves no other |
| `FairState.MentionedHasWork` | src/fair_scheduler.cpp:92-101 | the class that dispatch picks has a job to take |
| `FairOrder.DispatchOrder` | src/fair_scheduler.cpp:76-106 | over every run dispatched keys never decrease, the floor is the last of them, and every ready key lies between the floor and its class's vruntime |
| `FairOrder.KeysOrdered` | src/fair_scheduler.cpp:76-106 | the same from any state in that order, which is kept |
| `FairShare.StepFair` | src/fair_scheduler.cpp:63-122 | every locked block keeps the fairness invariant: vruntime plus in-flight jobs at full cost is within N + 1 full jobs of the floor, and within N of the class's ready key |
| `FairTheorems.StalenessBounded` | include/wss/fair_scheduler.hpp:31-46 | over every run a ready key trails its class's vruntime by at most one full job for each worker not running that class now, hence at most N |
| `FairTheorems.ProportionalShare` | src/fair_scheduler.cpp:63-122 | over any stretch of any run in which two classes stay backlogged, charged time over weight differs by at most (N + 1) D (1/w_i + 1/w_j) |
| `FairTheorems.ChargeRun` | src/fair_scheduler.cpp:116-121 | a backlogged class's vruntime moves by exactly its charged time over its weight |
| `FairTheorems.NearFloor` | src/fair_scheduler.cpp:92-121 | a backlogged class is between the floor and N + 1 full jobs above it |
| `FairStarvation.StarvationBound` | src/fair_scheduler.cpp:76-106 | while an entry of key k waits, with jobs costing at least d, every other class is dispatched at most N + 1 + w (k - m) / d times, m the floor at the start |
| `FairStarvation.NewcomerWaits` | src/fair_scheduler.cpp:37-79 | an entry that begins at the floor waits behind at most N + 1 dispatches of each other class |
| `FairStarvation.NewClassEntersAtFloor` | src/fair_scheduler.cpp:37-79 | the first submission under a new name makes an entry at the floor, and does not move the floor |
| `FairContents.RegisterOutcome` | src/fair_scheduler.cpp:28-53 | registering is refused as already registered exactly for a known name and as not positive exactly for a new name with such a weight; otherwise exactly one class is added, with the name and the weight asked for, at the floor, empty, with zero accounts, and all others stay |
| `FairContents.SubmitOutcome` | src/fair_scheduler.cpp:63-83 | the job goes to the end of the class of its name, the default one if unnamed, which keeps its weight and enters, if it had no entry, at its vruntime raised to the floor; under a new name one class is added with the weight asked for, 1 if that is not positive; no other class changes |
| `FairContents.FirstComeFirstServed` | src/fair_scheduler.cpp:63-107 | over every run and for every name, the jobs dispatched from under it, in order, and then those still waiting are those waiting at the start and then those submitted under it, in order |
| `FairContents.AccountsAreExact` | src/fair_scheduler.cpp:92-121 | over every run from the start, a class's completed jobs and those in flight number its dispatches, and its busy time is the sum of the times charged to it |
| `FairScheduler.FairScheduler.Create` | src/fair_scheduler.cpp:15-24 | refuses zero workers, else starts empty with the floor at zero |
| `FairScheduler.FairScheduler.FindOrCreateClassLocked` | src/fair_scheduler.cpp:28-45 | finds the class of that name and changes nothing, refuses a new one of non-positive weight and changes nothing, or adds one class with that name and weight at the floor, empty and with zero accounts, leaving the others alone |
| `FairScheduler.FairScheduler.RegisterClass` | src/fair_scheduler.cpp:47-53 | refuses a known name, else a non-positive weight, with the error for it and no change, or adds one class with that name and weight at the floor, leaving the others alone |
| `FairScheduler.FairScheduler.SubmitLocked` | src/fair_scheduler.cpp:63-83 | the locked block of submit is the model's step: the job joins the end of the queue of the class of its name, or a class made for it with the weight asked for |
| `FairScheduler.FairScheduler.DispatchLocked` | src/fair_scheduler.cpp:90-109 | the locked block that looks for work is the model's step and returns the front job of the class with the smallest key, or nothing only if nothing is ready |
| `FairScheduler.FairScheduler.ChargeLocked` | src/fair_scheduler.cpp:116-121 | the locked block that charges a job is the model's step: one more completed, the time added to busy and, over the weight, to vruntime; nothing else of any class changes |
| `FairScheduler.FairScheduler.FairnessSnapshot` | src/fair_scheduler.cpp:149-157 | one record for each class, in order, each of its five fields the class's own |
| `FairLoopProof.StepMovesCore` | src/fair_scheduler.cpp:55-129 | a step of any thread changes the accounting by one of its locked blocks or not at all |
| `FairLoopProof.ScheduleRunsCore` | src/fair_scheduler.cpp:55-129 | every run of the threads is a run of the accounting |
| `FairLoopProof.StepCounted` | src/fair_scheduler.cpp:55-129 | every step keeps each counted job in exactly one place, and pending equal to the unfinished ones |
| `FairLoopProof.SleepersMissNoWork` | src/fair_scheduler.cpp:71-127 | work conservation: in every reachable state with no submitter between its insertion and the end of its notification, a sleeping worker means that nothing is ready |
| `FairLoopProof.SleepersMissNoShutdown` | src/fair_scheduler.cpp:55-139 | with no announcement of any kind under way, a worker does not sleep while shutdown has begun and nothing is pending |
| `FairLoopProof.ShutdownDrains` | src/fair_scheduler.cpp:111-139 | when a worker has left its loop, every job ever submitted has finished exactly once and none is queued or held |
| `FairLoopProof.CallSetsFlag` | src/fair_scheduler.cpp:131-139 | in every reachable state a call of shutdown past its first step has set the flag |
| `FairBlocks.CallSubmits` | src/fair_scheduler.cpp:63-83 | a call of submit, from a client or a job, leaves its job with the class and weight it was given |
| `FairBlocks.WorkerTakes` | src/fair_scheduler.cpp:86-113 | a worker that looks while anything is ready goes on to run the oldest job of a class with the smallest key, and only that job leaves its class; if nothing is ready it goes on to the shutdown flag |
| `FairBlocks.WorkerCharges` | src/fair_scheduler.cpp:111-121 | a worker whose body has ended charges its time to the class it took the job from, and to no other |
| `FairProgress.BudgetPaysRings` | src/fair_scheduler.cpp:55-139 | without new submissions the doorbell rings once for each job unfinished and each announcement due, and no more |
| `FairProgress.StepLowersRank` | src/fair_scheduler.cpp:55-139 | every step that changes anything, other than one that begins a new submission, lowers a rank in the natural numbers |
| `FairProgress.EffectiveStepsBounded` | src/fair_scheduler.cpp:55-139 | no livelock: in any schedule without new submissions at most that many steps change anything |
| `FairProgress.StuckIsDone` | src/fair_scheduler.cpp:85-139 | no deadlock: when nobody can move, every job has finished once, nothing is ready, workers sleep or have left; if anybody has called shutdown, the call is at its joins and all workers have left |
| `FairProgress.ShutdownCompletes` | src/fair_scheduler.cpp:131-139 | from every state of the invariant, as every reachable one is, with a thread to call shutdown, at whatever point of its call, there is a way on, of at most the rank in steps, to all workers gone, every call at its joins and all jobs finished once |
| `PoolTheorems.NoLostWakeup` | src/work_stealing_scheduler.cpp:66-108 | in every reachable state with no submission being announced and no worker awake, all injectors and local deques are empty; and with no announcement under way at all, no worker sleeps when shutdown has begun with nothing pending |
| `PoolTheorems.SleeperSawAll` | src/work_stealing_scheduler.cpp:66-98 | in every reachable state with no submission being announced, one worker at rest is enough to know that the injectors are empty, whatever the others do |
| `PoolTheorems.SleepersAreCurrent` | include/wss/idle_signal.hpp:14-32 | in every reachable state a sleeper whose snapshot a notification has overtaken has its waking still to come |
| `PoolTheorems.WakingWakesAll` | include/wss/idle_signal.hpp:25-28 | the second half of a notification wakes every sleeper with an earlier snapshot, and no other |
| `PoolTheorems.ShutdownDrains` | src/work_stealing_scheduler.cpp:66-108 | when a worker has left its loop, every job ever submitted, nested ones included, has finished exactly once and nothing is queued, held or pending |
| `PoolTheorems.CallSetsFlag` | src/work_stealing_scheduler.cpp:100-108 | in every reachable state a call of shutdown past its first step has set the flag |
| `PoolTheorems.AtMostOnce` | src/work_stealing_scheduler.cpp:85-98 | in every reachable state no job has finished twice, and pending counts the unfinished ones |
| `PoolTheorems.DequesStaySmall` | src/work_stealing_scheduler.cpp:15-28 | a worker's three deques together hold at most 31 jobs, all of one priority |
| `PoolTheorems.BoundedInversion` | src/work_stealing_scheduler.cpp:10-43 | while the high-priority injector stays non-empty, N workers begin the bodies of at most 32 N lower-priority jobs in total |
| `PoolTheorems.StepPotential` | src/work_stealing_scheduler.cpp:10-43 | no step raises the number of lower jobs started plus those the workers can still start while the high injector is non-empty |
| `PoolTheorems.StepInv` | src/work_stealing_scheduler.cpp:13-108 | every step of every thread keeps the pool's invariant |
| `PoolBell.StepBell` | src/work_stealing_scheduler.cpp:66-98 | every step keeps the doorbell invariant: whatever a thread on its way to sleep has missed is announced after its snapshot or about to be |
| `PoolJobs.StepCounted` | src/work_stealing_scheduler.cpp:85-98 | every step keeps each counted job in exactly one queue, hand or the finished ones, and pending equal to the unfinished |
| `PoolJobs.PendingZero` | src/work_stealing_scheduler.cpp:77-80 | pending is never negative; if it is zero every job has finished once and nothing is left anywhere |
| `PoolProof.OthersOnlySteal` | include/wss/work_stealing_scheduler.hpp:50-52 | a step of another thread changes a worker's deques only by taking one job from a front |
| `PoolProof.PullIsExclusive` | src/injector.cpp:5-26 | while a worker pulls a batch nobody else changes that injector |
| `PoolProof.StepHoldersOk` | src/injector.cpp:10-26 | every step keeps each injector's mutex held by exactly the worker pulling from it |
| `PoolOrder.InjectorIsFifo` | src/injector.cpp:5-26 | over every run, the jobs workers get from an injector, for themselves or into their deques, in order, and then those still in it are those it held at the start and then those submitted at its priority, in the order of insertion |
| `PoolDeques.LocalDequesAreAtomic` | src/work_stealing_scheduler.cpp:13-43 | in every reachable state a step acts on a local deque by a stutter or one atomic deque operation; only the owner pushes or pops and only others steal; what is taken is the job found |
| `PoolBacked.CStepRefines` | src/work_stealing_scheduler.cpp:13-108 | every atomic access of the pool on Chase-Lev deques, by any thread in the middle of any operation, is a step of the pool or none, and keeps every operation where the search is |
| `PoolBacked.BackedPoolRefinesPool` | src/work_stealing_scheduler.cpp:13-108 | every reachable state of the pool on Chase-Lev deques stands for a reachable state of the pool |
| `PoolBacked.LocalDequesNeverGrow` | include/wss/chase_lev_deque.hpp:47-76 | a local deque of the default capacity of 256 has retired no buffer and met no fault, at every moment of every run of the pool |
| `PoolBacked.BackedShutdownDrains` | src/work_stealing_scheduler.cpp:66-108 | on Chase-Lev deques too, a worker leaves only when every job ever submitted has finished exactly once and no deque holds one |
| `PoolAccess.AccessComes` | include/wss/chase_lev_deque.hpp:69-143 | no access is for nothing: every access by any thread to a deque of the pool is a step of the pool that changes its state, or leaves its operation with fewer accesses to come, whatever the other threads have done |
| `PoolBackedSearch.BackedSearchFinds` | src/work_stealing_scheduler.cpp:13-43 | an undisturbed search on Chase-Lev deques, from any reachable state, ends after its own accesses with the job and the queues of `find_task`, and so finds what that finds by the queues it starts from |
| `PoolBackedSearch.SearchEnds` | src/work_stealing_scheduler.cpp:13-43 | the same from any moment of a search, in the middle of a pop, a batch push or a theft |
| `PoolBackedSearch.TheftSucceeds` | include/wss/chase_lev_deque.hpp:120-143 | a worker about to steal from a peer that has a job, and is not contesting it as its last one, ends with the peer's oldest job; the peer's deque keeps the rest and no other queue changes |
| `PoolBackedProgress.CStepLowersRank` | src/work_stealing_scheduler.cpp:13-108 | on Chase-Lev deques every access or step that changes anything, other than one that begins a new submission, lowers a rank in the natural numbers |
| `PoolBackedProgress.EffectiveAccessesBounded` | src/work_stealing_scheduler.cpp:13-108 | no livelock, lost races and thefts that give up included: in any run without new submissions at most that many accesses and steps change anything |
| `PoolBackedProgress.CStuckIsDone` | src/work_stealing_scheduler.cpp:13-108 | no deadlock: when no access or step changes anything, every job has finished once, every deque and injector is empty, and if anybody has called shutdown all workers have left |
| `PoolBackedProgress.BackedShutdownCompletes` | src/work_stealing_scheduler.cpp:66-108 | from every reachable state of the pool on Chase-Lev deques, in the middle of whatever operations, with a thread to call shutdown, or after it has, there is a way on, of at most the rank in accesses, to all workers gone and all jobs finished once |
| `PoolProgress.StepLowersRank` | src/work_stealing_scheduler.cpp:13-108 | every step that changes anything, other than one that begins a new submission, lowers a rank in the natural numbers |
| `PoolProgress.EffectiveStepsBounded` | src/work_stealing_scheduler.cpp:13-108 | no livelock: in any schedule without new submissions at most that many steps change anything |
| `PoolProgress.BudgetPaysRings` | include/wss/idle_signal.hpp:25-28 | without new submissions the doorbell rings once for each job unfinished and each announcement due, and no more |
| `PoolProgress.StuckIsDone` | src/work_stealing_scheduler.cpp:66-108 | no deadlock: when nobody can move, every job has finished once, all queues are empty, workers sleep or have left; if anybody has called shutdown, the call is at its joins and all workers have left |
| `PoolProgress.ShutdownCompletes` | src/work_stealing_scheduler.cpp:100-108 | from every reachable state with a thread to call shutdown, or after it has, there is a way on, of at most the rank in steps, to all workers gone, every call at its joins and all jobs finished once |
| `PoolSearch.Shared.FindTask` | src/work_stealing_scheduler.cpp:13-43 | undisturbed: the newest job of the first non-empty own deque; else the oldest of the first non-empty injector, with the batch behind it moved; else the oldest of the first peer with a job of the highest priority any peer holds; nothing only when there is none; and nothing else changes |
| `PoolSearch.LocalFinds` | src/work_stealing_scheduler.cpp:17-40 | what the search finds, by the queues it starts from, from any point of its first stage on |
| `PoolSearch.HighIsPassedOver` | src/work_stealing_scheduler.cpp:17-28 | with a high-priority job in the injector, an undisturbed search finds one of high priority exactly unless a lower one is first in the own deques |
| `PoolSearch.LocalRuns` | src/work_stealing_scheduler.cpp:13-43 | the step machine's worker, undisturbed, ends its search with the same job and the same queues as `find_task` |
| `PoolInversion.NormalGoesFirst` | src/work_stealing_scheduler.cpp:17-28 | a reachable state in which a high-priority job waits in its injector and a worker beginning its search finds one of normal priority |
| `PoolSearch.PullRuns` | src/injector.cpp:10-26 | the whole pull, step by step under one mutex, takes the oldest job and moves the rest of the batch |
| `PoolSearch.PullTakes` | src/injector.cpp:16-24 | with n jobs left in the injector and m moved, an undisturbed pull appends the next min(n, 32 - m) to the deque, in order, and leaves the rest |
| `InjectorHeap.Injector.PopBatchInto` | src/injector.cpp:10-26 | returns the oldest job, appends the next ones, at most the batch in all, to the deque in order, leaves the rest in order; a deque with room keeps its buffer |
| `InjectorHeap.IdleSignal.Notify` | include/wss/idle_signal.hpp:25-28 | after a notification no earlier snapshot blocks |

## Left out

- Weak memory: relaxed, acquire, release and fence semantics; every theorem is about sequentially consistent interleavings.
- `GlobalQueueScheduler` and `ThreadPerCoreScheduler`: mutex queues that would add only easy members.
- `UniqueFunction`, `Result`, `JoinHandle`, `spawn`, cancellation and metrics: plumbing; a job is an opaque body that may submit other jobs.
- The pool's constructor, which throws for zero workers; its theorems hold for any number, and `NoLostWakeup` for at least one.
- Jobs that block on other jobs, and bodies that throw out of the wrapper.
- Clocks, affinity, thread creation and joining, benchmarks and examples: the elapsed time is any non-negative real.
- Floating-point rounding, infinite and NaN weights: weights and times are reals.
- Wrap-around of the 64-bit indices, counters and generation: integers are unbounded.
- Item types and destructors of items: a box holds one opaque item; allocation failure does not happen.
- Progress of either scheduler while jobs go on submitting for ever: it is proved for schedules in which no new call of `submit` begins.
- `grow` stores the new buffer in `retired_` after publishing it; the step machine does both in the step that publishes, because only the owner reads `retired_`.
- A fetch-and-add of the generation and the waking of sleepers are two steps; spurious wake-ups of the atomic wait, which it hides from its caller, are not modelled.
- `DequeHeap.ChaseLevDeque.Steal`: never gives up, because the heap class is run by one thread at a time; the step machine covers races.
- `DequeHeap.ChaseLevDeque.Destroy`: reports what it frees instead of freeing; `DequeBounds.DestructorFreesAll` has the ownership argument.
- `PoolSearch.Shared.FindTask`: covers a search that nobody disturbs; disturbed searches are runs of `Pool.Step`, and access by access of `PoolOnDeques.CStep`.
- `PoolBackedSearch.TheftSucceeds`: assumes that nobody else moves, because a theft that loses its exchange to another thread's gives up; over any run such losses are bounded by `DequeBounds.FailuresBounded`.
- `PoolTheorems.BoundedInversion`: counts starts of jobs; it does not promise that high-priority jobs always go first, which is false across the search stages.
- `FairTheorems.ProportionalShare`: compares charged times, so a job still running at either end of the stretch counts only when it is charged.
