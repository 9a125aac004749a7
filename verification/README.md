# arc-discharge, modelled and verified

arc-discharge is a small multithreaded async runtime. Its difficulty lies in four concurrent
protocols that share state across threads. This project models each of them as a transition
system with one step per atomic operation, proves an inductive invariant over every interleaving,
and derives what callers rely on for every reachable state or every run. Where the source is an
object that updates its fields or an array in place, a class beside the transition system carries
the same code as methods, proved against it.

| module | models |
|---|---|
| `SlotQueue`, `SyncSlotMap` | the queue of parked workers, as interleaved memory operations and as an object over its array |
| `Parking`, `Stranding`, `Ledger` | the worker loop, parking, and the waking half of `schedule_global`, composed with `SlotQueue`; when queued work is stranded; its task books |
| `TaskProtocol`, `TaskObject` | the life of a task and of its join handle, interleaved and as an object |
| `Bits`, `ReadyFlags`, `ReadinessWord` | bit-field packing for any word width, readiness sets, the packed readiness word |
| `ReadinessRounds`, `ReadinessCell` | the compare-and-swap loops on that word, driver rounds, clears, slab reuse and `try_io` |
| `IoWaiters`, `IoAnswers`, `WakeLoop`, `WakeProgress` | check, register, recheck against the driver's set-then-wake; what its answers mean; the waiter-list loop; when it returns |
| `Executor`, `Fleet` | local and global queues, the capacity rule, the 31-tick check; all workers together |
| `Basics`, `Sequences` | shared definitions and facts |

## Assumptions

- Atomic operations interleave sequentially consistently.
- The poll of a user's future returns Pending, a value or a panic, freely chosen. Wakes it issues
  are steps of other threads of the model, which may fall anywhere.
- `AtomicWaker::register` and `AtomicWaker::wake` are one step each.
- A mio wake stays latched until a poll of the driver consumes it; the driver's poll may also
  return at any other time.
- A condition-variable wait returns only when notified. A spurious return would make
  `src/lib.rs:232-236` push an index that is still queued.
- In `Parking` a worker at the top of its loop may look at the global queue in any iteration in which
  at most 16 tasks are local, which covers every value of the tick counter. In `IoWaiters` any client may clear any flags at any time,
  which covers every clear of `src/io/registration.rs`.
- A slab entry is reused only when no reference to it is left.

## Where the code does less than it says

- `src/task.rs:77-78` says that a held parked-worker lock means another worker is being woken.
  The holder may be done waking: `Stranding.LosingTheLockCanStrand` gives a run that leaves queued
  work with every worker asleep. `Stranding.StrandsIffTooLate` is the exact condition at the call:
  its task can be stranded if and only if it is still queued, the holder has only its unlock left,
  and no worker is bound to look, or the same task is about to be inserted once more. `Stranding.StrandedHasCause` traces every stranded task back to a
  call that met it.
- `src/io/mod.rs:228-241` does not move its cursor past a waiter that the event does not satisfy.
  `WakeProgress.CanReturnIff` states exactly when `wake` can still return while others register, and
  `WakeProgress.SureToReturnIff` when it is sure to; `WakeLoop.WakeReturnsIffAllSatisfied` is the case
  without registrations. `IoWaiters.WedgeIsReachable` reaches the bad case in ten steps, and
  `IoWaiters.WedgedForever` shows that no other thread can end it, since the waiters lock stays held.
- The `u8` tick protects later readiness from a stale clear for 256 rounds counted from the last
  set, not from the read. `ReadinessRounds.ClearErasesIff` is the exact condition,
  `ReadinessRounds.ClearSparesLaterRounds` the guarantee, and `ReadinessRounds.TickCanWrap` a run
  in which an event read a single round ago erases newer readiness.
- `mask` in `src/io/mod.rs:434-440` is empty for a combined interest (`ReadyFlags.MaskMatchesInterest`),
  so `ready_event` never reports one as ready (`ReadinessWord.ReadyOfFlags`) and `try_io` never
  attempts it (`ReadinessCell.Cell.TryIo`).
- `set_readiness` documents a returned previous value and a generation check; the code has neither,
  and the model follows the code.

## Model

| member | source | states |
|---|---|---|
| `SlotQueue.NewInv` | src/sync_slot_map.rs:12-20 | a fresh queue satisfies the invariant and is empty |
| `SlotQueue.PushClearKeepsInv` | src/sync_slot_map.rs:50 | clearing the slot keeps the chain, provided the index is not queued |
| `SlotQueue.PushSwapKeepsInv` | src/sync_slot_map.rs:51 | swapping into head appends one node and leaves one gap, owed by this producer |
| `SlotQueue.PushLinkKeepsInv` | src/sync_slot_map.rs:52 | the link store closes exactly the gap this producer owed |
| `SlotQueue.AdvanceKeepsInv` | src/sync_slot_map.rs:76-84 | moving tail along a stored link drops exactly the first node of the chain |
| `SlotQueue.StubSwapKeepsInv` | src/sync_slot_map.rs:91 | re-inserting the stub appends it once, even when producers race with it |
| `SlotQueue.StubLinkKeepsInv` | src/sync_slot_map.rs:91-93 | linking the re-inserted stub closes its own gap only |
| `SlotQueue.StepKeepsInv` | src/sync_slot_map.rs:49-101 | every step of any number of producers and the consumer keeps the chain from tail to head made of distinct nodes whose gaps are all owed |
| `SlotQueue.StepRefinesFifo` | src/sync_slot_map.rs:49-101 | a head swap enqueues, `Ready(i)` removes the abstract front, everything else (None and Inconsistent included) changes nothing abstractly; the stub is never returned |
| `SlotQueue.GapIsOwed` | src/sync_slot_map.rs:51-52 | a missing link means some push is between its swap and its link store |
| `SlotQueue.OneDebtor` | src/sync_slot_map.rs:51-52 | the successor of a node is determined, and a missing link belongs to exactly one producer |
| `SlotQueue.ChainUnique` | src/sync_slot_map.rs:43-53 | memory and the producers' registers determine the whole chain |
| `SlotQueue.UndisturbedPopIsExact` | src/sync_slot_map.rs:71-100 | a pop no push overlaps returns None exactly on an empty queue and never Inconsistent |
| `SlotQueue.PopAnswers` | src/sync_slot_map.rs:65-101 | under any overlap: a stored link is always followed, from the stub onwards and from any other node to Ready; None means nothing queued or the stub's link owed; Inconsistent means something queued behind the tail, and after the stub was pushed again the tail's link owed |
| `SlotQueue.NothingQueuedTwice` | src/sync_slot_map.rs:65-101 | no index, the stub included, is in the chain twice |
| `SlotQueue.StepContract` | src/sync_slot_map.rs:49-101 | what users of the queue may rely on: membership after each step and whose state it touches |
| `SlotQueue.RunInv` | src/sync_slot_map.rs:49-101 | the invariant holds after every run |
| `SlotQueue.FifoOverRuns` | src/sync_slot_map.rs:49-101 | over every run from a fresh queue, the indices pushed in head-swap order are the indices handed out followed by those still queued |
| `SyncSlotMap.SlotMap.constructor` | src/sync_slot_map.rs:12-20 | a new map is valid and empty |
| `SyncSlotMap.SlotMap.Push` | src/sync_slot_map.rs:49-53 | pushing an index that is not queued appends it |
| `SyncSlotMap.SlotMap.Pop` | src/sync_slot_map.rs:65-101 | undisturbed, pop returns None on an empty queue and otherwise removes and returns the front |
| `SyncSlotMap.SlotMap.PopTail` | src/sync_slot_map.rs:81-101 | the part of pop where the tail is a real index hands out the front |
| `SyncSlotMap.SlotMap.PopLast` | src/sync_slot_map.rs:87-100 | popping the only node re-inserts the stub and hands the node out |
| `SyncSlotMap.PushAlone` | src/sync_slot_map.rs:49-53 | three steps of one producer alone are one abstract append |
| `SyncSlotMap.PopAlone` | src/sync_slot_map.rs:65-101 | a step of pop alone keeps the invariant, refines FIFO and never reports Inconsistent |
| `Parking.NewInv` | src/lib.rs:46-60 | a fresh runtime with at least one worker satisfies the invariant |
| `Parking.RegisterPermitted` | src/lib.rs:231-234 | a worker about to push its index meets the queue's precondition |
| `Parking.RegisterKeepsHandshake` | src/lib.rs:231-234 | every memory step of a worker's push keeps the handshake and the queue's invariant |
| `Parking.PopKeepsHandshake` | src/task.rs:79-82 | every memory step of the waker's pop keeps them too |
| `Parking.ParkerMoveKeepsBooks` | src/lib.rs:231-236 | locking the parker, waiting and waking up keep the books on who is queued, claimed and parked |
| `Parking.GuardCallKeepsBooks` | src/task.rs:88-98 | the waker taking and dropping a parker keeps them |
| `Parking.ParkerCallKeepsBooks` | src/task.rs:88-98 | the waker clearing a parker and notifying keeps them |
| `Parking.TryLockKeepsBooks` | src/task.rs:79 | winning or losing the parked-worker lock keeps them |
| `Parking.WorkerLeavesSomeoneUp` | src/lib.rs:226-237 | a worker commits to parking only while another one holds the driver |
| `Parking.WorkerLeavesCovered` | src/lib.rs:216-237 | no worker step uncovers announced work except by taking it |
| `Parking.CallKeepsCover` | src/task.rs:69-105 | a finished wake covers everything queued at that moment |
| `Parking.StepKeepsInv` | src/lib.rs:211-239 | every step of every worker and every scheduling call keeps the whole invariant |
| `Parking.RunInv` | src/lib.rs:211-239 | it holds after every run, for any number of workers and calls |
| `Parking.NotifyReachesSleeper` | src/task.rs:88-98 | the waker always finds Parked, so its None arm is dead, and every notification reaches a waiting worker |
| `Parking.NeverAllParked` | src/lib.rs:216-237 | for any worker count, no reachable state has every worker parked or committed to parking |
| `Parking.ParkedWorkerIsOnOffer` | src/lib.rs:231-236 | a parked worker's index is queued exactly once and held by no waker, or not queued and held by exactly one |
| `Parking.PushAlwaysPermitted` | src/lib.rs:232-234 | in every run, the queue's push precondition holds whenever a worker pushes |
| `Parking.AnnouncedIsNeverStranded` | src/task.rs:69-105 | while work that a wake has followed is queued, some worker will look before it blocks, or a latched wake awaits one at the driver |
| `Parking.QueuedOnce` | src/task.rs:70-75 | in every run each task is in the global queue at most once |
| `Ledger.WorkerLooksAsExecutor` | src/lib.rs:216-225 | a parking worker's look for a task is one look of the executor: same task, same queues |
| `Ledger.TasksConserved` | src/lib.rs:202-256 | over every run of the parking protocol, tasks scheduled are tasks run, tasks queued and insertions dropped as already linked |
| `Stranding.StrandsIffUncovered` | src/lib.rs:216-237 | with no scheduling call left, the workers can go to sleep on queued work if and only if nothing covers it |
| `Stranding.SettleFrom` | src/lib.rs:226-236 | uncovered workers, let move, all end up asleep with the queue as it was |
| `Stranding.WorkersKeepCover` | src/lib.rs:216-237 | workers alone uncover work only by taking all of it |
| `Stranding.HolderIsDone` | src/task.rs:79-103 | a lock holder past its wake is about to unlock, or still holds the parker of a worker it has notified, which covers the queue |
| `Stranding.TooLateStrands` | src/task.rs:77-79 | once the holder is about to unlock and nothing is covered, every call still under way can lose and the queue is stranded |
| `Stranding.SafeForEver` | src/task.rs:69-105 | otherwise a task stays taken, covered or awaited by a wake in every continuation that does not schedule it anew |
| `Stranding.ComingCanStrand` | src/task.rs:69-105 | while one call tries the lock and another is about to insert a task, holder and workers can be driven to where that task is stranded |
| `Stranding.HolderToUnlock` | src/task.rs:79-103 | the lock holder always gets to its unlock, through `pop`, the parker it waits for and its wake |
| `Stranding.CoverGetsLook` | src/lib.rs:216-237 | from every reachable covered state some worker, moving alone but for the release of its parker, takes the front of the global queue within a stated number of steps |
| `Stranding.StrandsIffTooLate` | src/task.rs:77-79 | a call about to try the lock: some continuation strands its task if and only if another call is about to insert the same task, or the task is still queued, the lock holder is about to unlock, and nothing covers the queue |
| `Stranding.AbandonedHasCause` | src/task.rs:77-79 | a queued task that nothing will attend to goes back to a concrete step at which its call lost the lock under that condition |
| `Stranding.StrandedHasCause` | src/task.rs:77-79 | in every run that ends stranded, each queued task goes back to such a step |
| `Stranding.LosingTheLockCanStrand` | src/task.rs:77-79 | a concrete run of one worker and two calls that strands a task |
| `TaskProtocol.NewInv` | src/lib.rs:158-177 | a spawned task satisfies the invariant |
| `TaskProtocol.EnterKeepsInv` | src/task.rs:162-212 | the first state update of `run`, whichever state it finds, keeps the invariant |
| `TaskProtocol.OwnPollKeepsInv` | src/join_handle.rs:65-79 | so does a poll of the future, whatever it returns |
| `TaskProtocol.OwnReleaseKeepsInv` | src/task.rs:192-202 | so does the poll owner's final update in a race with cancel and with other runs |
| `TaskProtocol.FinFillKeepsInv` | src/task.rs:106-119 | so does cancellation, which replaces only an undecided slot |
| `TaskProtocol.CancelWinsKeepsInv` | src/task.rs:144-156 | a winning cancel is carried by its canceller |
| `TaskProtocol.CancelTakesEffect` | src/task.rs:144-156 | whatever state it finds, cancel leaves the task cancelled and on its way to the queue, unless it had completed or been cancelled |
| `TaskProtocol.EnqueueKeepsInv` | src/task.rs:70-75 | inserting the task into the global queue at most once keeps every wake carried |
| `TaskProtocol.JoinTakeKeepsInv` | src/task.rs:133-138 | taking the output keeps the decided outcome and leaves Aborted behind |
| `TaskProtocol.JoinRegisterKeepsInv` | src/join_handle.rs:119-124 | registering before the second look keeps the join wake |
| `TaskProtocol.StepKeepsInv` | src/task.rs:69-213 | every step of any number of threads and of the joiner keeps locks, ownership, outcome, carried wakes and join wake |
| `TaskProtocol.InvStep` | src/task.rs:69-213 | and the count of polls against wakes |
| `TaskProtocol.ReachableInv` | src/task.rs:69-213 | all of it holds in every reachable state |
| `TaskProtocol.OnePollOwner` | src/task.rs:162-181 | at most one thread is poll owner, and the user's future is polled only under the mutex and while nothing is decided |
| `TaskProtocol.PollsBoundedByWakes` | src/task.rs:158-213 | polls number at most one plus the wakes |
| `TaskProtocol.ResultMatchesState` | src/task.rs:106-119 | unless a running thread holds the future mutex, the slot holds a result exactly when the state is COMPLETED |
| `TaskProtocol.OutcomeDeliveredOnce` | src/task.rs:133-138 | one outcome is decided, the first taker gets it, every later taker gets Aborted |
| `TaskProtocol.DecisionStands` | src/task.rs:106-187 | over every run a decided outcome stays, deliveries only grow, COMPLETED is final |
| `TaskProtocol.WakeIsCarried` | src/task.rs:158-213 | a wake with no poll begun since is carried by a queue entry, a thread on its way, NOTIFIED with its poll owner, or a cancellation |
| `TaskProtocol.CancellationIsCarried` | src/task.rs:106-208 | CANCELLED always has a queue entry or a thread that will finish it |
| `TaskProtocol.JoinWakeIsCarried` | src/join_handle.rs:115-126 | a joiner told Pending though a result exists was woken, or its waker is registered and a thread is about to wake it |
| `TaskProtocol.InternalStepsUseEnergy` | src/task.rs:69-213 | every step nobody outside has to start lowers a natural number |
| `TaskProtocol.InternalRunsEnd` | src/task.rs:69-213 | so, with no new wake, cancel or join poll, every run ends within that many steps |
| `TaskProtocol.SettledAnswersOrQueues` | src/task.rs:69-213 | where everybody has finished, whether or not a worker picks anything up: an owed wake and a cancellation are in a queue, no lock is held, and a pending joiner with a result was woken |
| `TaskProtocol.QuiescenceAnswersEverything` | src/task.rs:69-213 | where the queues are empty as well, no wake is owed and no cancellation hangs |
| `TaskProtocol.AbortIsHonoured` | src/join_handle.rs:107-109 | over every run after an abort was called, its canceller is still on its way or the task is cancelled or completed |
| `TaskProtocol.AbortEndsCompleted` | src/join_handle.rs:105-109 | a task that has come to rest after an abort is completed |
| `TaskProtocol.OutcomeHasCause` | src/join_handle.rs:65-79 | over every run the outcome is what a poll of the future answered, or Aborted after an abort was called |
| `TaskObject.RestingStates` | src/task.rs:22-27 | between calls the task is idle, cancelled or completed, and has a result exactly when completed |
| `TaskObject.Task.constructor` | src/task.rs:233-243 | a new task is idle, unqueued and undecided |
| `TaskObject.Task.Run` | src/task.rs:158-213 | polls an idle task once and publishes what it returned, finishes a cancelled one with Aborted, leaves a completed one alone |
| `TaskObject.Task.FinishCancellation` | src/task.rs:106-119 | publishes Aborted and uses up the joiner's waker |
| `TaskObject.Task.Cancel` | src/task.rs:144-156 | a completed task keeps its result, any other becomes cancelled and queued |
| `TaskObject.Task.PollJoin` | src/join_handle.rs:115-126 | ready exactly when completed; otherwise this poll's waker is registered |
| `Bits.MaskForBits` | src/bits.rs:69-72 | the mask has exactly the lowest n bits set, for n up to the word width |
| `Bits.LeastSignificantIsField` | src/bits.rs:11-15 | the first field is bits 0 to n |
| `Bits.ThenIsField` | src/bits.rs:18-23 | the next field starts exactly where the previous one ends |
| `Bits.FieldMax` | src/bits.rs:26-33 | width and max_value of a field are its bit count and its largest value |
| `Bits.PackBits` | src/bits.rs:35-38 | packing replaces the field's bits and keeps all others |
| `Bits.UnpackInvertsPack` | src/bits.rs:35-50 | pack succeeds exactly on values that fit, and then unpack gives the value back |
| `Bits.PackKeepsOthers` | src/bits.rs:35-50 | packing one field leaves every disjoint field as it was |
| `Bits.PackLossyIsMod` | src/bits.rs:44-46 | pack_lossy always succeeds and packs the value modulo the field size |
| `Bits.Chain` | src/bits.rs:11-23 | each field of a chain of any length is the bits right above those before it |
| `Bits.ChainDisjoint` | src/bits.rs:18-23 | no two fields of a chain share a bit |
| `Bits.TokenRoundTrip` | src/io/mod.rs:133-145 | a token exists exactly for a key and generation that fit, gives both back, and is never the wake token |
| `ReadyFlags.FlagsOr` | src/io/ready.rs:150-156 | bitor is set union |
| `ReadyFlags.FlagsAnd` | src/io/ready.rs:164-170 | bitand is set intersection |
| `ReadyFlags.FlagsMinus` | src/io/ready.rs:172-178 | subtraction is set difference |
| `ReadyFlags.FromWordKeepsFlags` | src/io/ready.rs:111-113 | from_usize keeps the four flags and nothing else |
| `ReadyFlags.FlagsOfEvent` | src/io/ready.rs:36-67 | from_mio has exactly the flags the event reports |
| `ReadyFlags.FlagsOfInterest` | src/io/ready.rs:125-139 | from_interest has exactly the flags the interest is after |
| `ReadyFlags.SatisfiesMeansWanted` | src/io/ready.rs:141-147 | satisfies holds exactly when a wanted flag is set, and intersection is the wanted part |
| `ReadyFlags.DirectionMeansWanted` | src/io/ready.rs:75-82 | is_readable and is_writable hold exactly when the data or the closed flag of that side is set |
| `ReadyFlags.ContainsFlag` | src/io/ready.rs:99-102 | contains of a single flag is membership |
| `ReadyFlags.MaskMatchesInterest` | src/io/mod.rs:434-440 | mask agrees with from_interest exactly on single and empty interests |
| `ReadinessWord.Layout` | src/io/mod.rs:254-266 | the four fields lie at bits 0-15, 16-23, 24-30 and 31 |
| `ReadinessWord.AssembleFields` | src/io/mod.rs:346-358 | the assembled word gives back its parts and stays below the shutdown bit |
| `ReadinessWord.WholeWordFlags` | src/io/mod.rs:343 | reading flags from the whole word or from its readiness field is the same |
| `ReadinessWord.NoShutdown` | src/io/mod.rs:266 | below bit 31 the shutdown field reads zero |
| `ReadinessWord.AttemptEffect` | src/io/mod.rs:338-358 | an attempt never panics, changes the flags as asked, sets the tick, keeps the generation |
| `ReadinessWord.ClearSparesClosed` | src/io/mod.rs:311-317 | clear_readiness asks for all the event's flags to go except the closed ones |
| `ReadinessWord.ReusedEffect` | src/io/mod.rs:95-104 | reuse adds one to the generation modulo 128 and wipes flags and tick |
| `ReadinessWord.ReadyOfFlags` | src/io/mod.rs:370-378 | ready_event reports the wanted flags of a plain single interest, and nothing for any other interest |
| `ReadinessRounds.NewInv` | src/io/mod.rs:106-117 | a fresh entry satisfies the invariant |
| `ReadinessRounds.SetSwapEffect` | src/io/mod.rs:84-86 | the driver's successful swap adds its flags and stamps this round's tick; a lost race changes nothing |
| `ReadinessRounds.ClearSwapEffect` | src/io/mod.rs:311-369 | a clear erases exactly the event's unclosed flags when it swaps at the event's tick, and nothing otherwise |
| `ReadinessRounds.StepKeepsInv` | src/io/mod.rs:335-369 | every load, swap, read, round and reuse keeps the invariant |
| `ReadinessRounds.ClearErasesIff` | src/io/mod.rs:346-356 | a swapping clear erases a flag exactly if it is set, asked for, not closed, and the two rounds agree modulo 256 |
| `ReadinessRounds.ClearSparesLaterRounds` | src/io/mod.rs:311-369 | readiness of a later round survives while the set the event saw is fewer than 256 rounds old |
| `ReadinessRounds.ReadShowsWanted` | src/io/mod.rs:454-466 | an event shows exactly the set flags its reader asked for, and the word's tick |
| `ReadinessRounds.ClearErasesOnlyWanted` | src/io/mod.rs:311-317 | a clear erases only unclosed flags its own reader asked for |
| `ReadinessRounds.ErasureHasReader` | src/io/mod.rs:311-369 | over every run, flags are taken away, reuse aside, only by a clear whose client read them earlier for an interest that wants them |
| `ReadinessRounds.TickCanWrap` | src/io/mod.rs:65-68 | for every age from 1 to 256 rounds since the read, a reachable clear that erases newer readiness |
| `ReadinessRounds.GenerationOnlyOnReuse` | src/io/mod.rs:95-104 | no other step changes the generation |
| `ReadinessRounds.GenerationOverRuns` | src/io/mod.rs:95-104 | over every run the generation is the first one plus the number of reuses, modulo 128 |
| `ReadinessRounds.ClosedStays` | src/io/mod.rs:311-317 | no step but reuse takes a closed flag away |
| `ReadinessRounds.ClosedStaysOverRuns` | src/io/mod.rs:311-317 | closed flags survive every run without reuse |
| `ReadinessRounds.ShutdownNeverSet` | src/io/mod.rs:254-369 | over every run the word stays below 2 to the 31, so shutdown is never reported |
| `ReadinessCell.Cell.SetReadiness` | src/io/mod.rs:335-369 | the word sees the other threads' stores and then, right on top of the last of them, this operation once; it stops short of their last store only by giving up or where a store changed nothing; no store is lost |
| `ReadinessCell.Cell.TryIo` | src/io/registration.rs:177-201 | without readiness nothing is attempted; an attempt that would block clears exactly the unclosed readiness it relied on; any other answer is passed on |
| `IoWaiters.StepKeepsInv` | src/io/mod.rs:206-523 | every step of driver, pollers, futures and clears keeps the invariant |
| `IoWaiters.RunInv` | src/io/mod.rs:206-523 | it holds after every run, for any number of futures and any interests |
| `IoWaiters.PollerNeverForgotten` | src/io/mod.rs:384-432 | a poller told Pending though its direction is ready: the driver will take that very waker from its slot for an event that concerns it, holds it ready to call, or has called it |
| `IoWaiters.FutureNeverForgotten` | src/io/mod.rs:451-523 | the same for a Readiness future and the waker of its latest poll |
| `IoWaiters.IdleDriverHasWokenAll` | src/io/mod.rs:65-92 | when the driver is back in its poll, everyone told Pending despite readiness was woken |
| `IoAnswers.FlagsAreHistory` | src/io/mod.rs:78-88 | over every run the flags are those of the events the driver has set, less what was cleared since |
| `IoAnswers.PollAnswer` | src/io/mod.rs:384-432 | over every run: a poll answers Ready only if its first look or its look under the lock found its direction ready, Pending only if the look under the lock did not, and then with its own waker |
| `IoAnswers.UnreadyPollIsPending` | src/io/mod.rs:384-432 | a poll during which its direction was never ready answers Pending |
| `IoAnswers.FutureAnswer` | src/io/mod.rs:445-546 | over every run: a Readiness future finishes only because a look of its own found what it waits for or an event that has it took its node off the list; it pushes its node only after a look under the lock found nothing |
| `IoAnswers.NobodyWokenInVain` | src/io/mod.rs:206-251 | over every run a waker is called only for an event that concerns its owner |
| `IoAnswers.NewestFirst` | src/io/mod.rs:497-499 | over every run the waiter list is in order of registration, newest first |
| `IoWaiters.WedgedForever` | src/io/mod.rs:225-247 | an unsatisfied front waiter keeps the driver at the same waiter, lock held, in every continuation |
| `IoWaiters.WedgeIsReachable` | src/io/mod.rs:225-247 | such a state is reachable |
| `WakeProgress.DoomedForEver` | src/io/mod.rs:225-247 | once a waiter that the event does not satisfy is listed, or its owner holds the lock and is bound to push it, that stays so in every continuation |
| `WakeProgress.BackToPoll` | src/io/mod.rs:206-251 | otherwise steps of the driver and of lock holders alone, of a stated number at most, take the driver back to its poll with nothing left to call |
| `WakeProgress.NextStepMoves` | src/io/mod.rs:206-251 | until then the driver or the holder of the waiters lock can move, and the number of steps that remain falls |
| `WakeProgress.CanReturnIff` | src/io/mod.rs:206-251 | in every reachable state, `wake` can still return if and only if it has seen the list empty, or all listed waiters are satisfied and the lock holder is not bound to push one that is not |
| `WakeProgress.SureToReturnIff` | src/io/mod.rs:206-251 | no continuation puts its return out of reach if and only if, besides, no future that the event leaves unsatisfied can get the lock before the driver sees the list empty |
| `WakeProgress.UnmetPusherDooms` | src/io/mod.rs:445-500 | a future that the event leaves unsatisfied and that can get the lock in time can put the return out of reach, even if the list was empty when the event came |
| `WakeProgress.DriverWorkBounded` | src/io/mod.rs:206-251 | where the return is sure, the driver's steps are bounded in every run, whoever polls, registers and clears meanwhile |
| `WakeProgress.ScanIsTurn` | src/io/mod.rs:228-241 | one step of the driver's scan is one turn of the loop in `WakeLoop` |
| `WakeProgress.FullBatchIsTurn` | src/io/mod.rs:243-246 | unlocking on a full batch, calling its wakers one by one and locking again is one turn too, with the same calls in the same order |
| `WakeLoop.UnsatisfiedKeepsLooping` | src/io/mod.rs:225-247 | with an unsatisfied waiter listed no number of turns ends the loop |
| `WakeLoop.TurnsConserve` | src/io/mod.rs:225-250 | after any number of turns, called, collected and listed wakers are together those there were, in order, and only an empty list ends the loop |
| `WakeLoop.SatisfiedReturns` | src/io/mod.rs:225-247 | with all listed waiters satisfied the loop ends within two turns per waiter |
| `WakeLoop.WakeReturnsIffAllSatisfied` | src/io/mod.rs:206-251 | with no registration meanwhile, `wake` returns exactly when the event satisfies every listed waiter |
| `WakeLoop.ScheduledIo.constructor` | src/io/mod.rs:106-117 | a fresh entry has no waiters |
| `WakeLoop.ScheduledIo.Collect` | src/io/mod.rs:226-241 | the inner loop, watched for any number of turns, is that many turns, and stops early only on a full batch or an empty list |
| `WakeLoop.ScheduledIo.Pass` | src/io/mod.rs:225-247 | so is a pass of the outer loop, whose calls happen with the lock released |
| `WakeLoop.ScheduledIo.WakeList` | src/io/mod.rs:225-247 | so is the outer loop |
| `WakeLoop.ScheduledIo.Wake` | src/io/mod.rs:206-251 | for every list and any number of turns: matching slots come first, waiters follow in order, nobody is called twice or left out, the slot the event does not concern is kept; it returns only if every waiter is satisfied, and then within two turns per waiter |
| `Executor.LookConserves` | src/lib.rs:216-223 | looking for a task neither loses nor duplicates one, keeps the local queue within its capacity and the global queue distinct |
| `Executor.LookKeepsOrder` | src/lib.rs:216-256 | a look moves tasks in order from the global front to the local back and runs the local front; up to four, all it can if nothing is local, and none unless nothing is local or the counter is at a multiple of 31 with at most 16 local |
| `Executor.Shared.Insert` | src/task.rs:70-75 | a task is linked into the global queue at most once, at its end, behind everything that was there |
| `Executor.Worker.ScheduleLocal` | src/lib.rs:202-209 | a full local queue spills into the global one and never grows past its capacity |
| `Executor.Worker.GetManyGlobalTasks` | src/lib.rs:246-256 | moves up to four tasks over in order, then takes the local front |
| `Executor.Worker.FindTask` | src/lib.rs:216-223 | one iteration's choice refines the specification of a look |
| `Executor.QueuedTasksMoveUp` | src/lib.rs:216-225 | a waiting local task moves up by exactly one place per iteration |
| `Executor.RunsInTurn` | src/lib.rs:216-225 | a local task with k ahead of it is run by the (k+1)-th iteration, whatever is scheduled meanwhile |
| `Executor.TickComesRound` | src/lib.rs:217-218 | any 31 consecutive ticks hit a multiple of 31, also where the counter wraps |
| `Executor.GlobalCheckComesRound` | src/lib.rs:217-223 | any 31 consecutive iterations contain a tick, at which the global queue is checked, and up to four tasks taken, exactly if at most 16 tasks are local |
| `Fleet.StepConserves` | src/lib.rs:202-256 | each look, local schedule, spill and global schedule balances its books |
| `Fleet.TasksConserved` | src/lib.rs:202-256 | over every interleaving of any number of workers, tasks scheduled are tasks run, tasks queued and insertions dropped as already linked |
| `Fleet.GlobalFifo` | src/task.rs:70-75 | over every interleaving, the tasks linked into the global queue are, in order, those taken from it followed by those still in it |
| `Fleet.LocalFifo` | src/lib.rs:202-256 | the same for each local queue: what entered it is what its worker ran followed by what it holds |
| `Fleet.CountersAdvance` | src/lib.rs:215-217 | a worker's counter counts its own iterations, wrapping |
| `Fleet.RunBounded` | src/lib.rs:202-209 | over every such run no local queue outgrows its initial capacity and no task is linked twice |

## Left out

- Weak memory: Relaxed, Acquire and Release orderings are not distinguished.
- "Every queued task eventually runs" without conditions: false of the code, because of the lost lock race (`src/task.rs:79`) and because a local queue above 16 postpones the global check (`src/lib.rs:218`). What holds instead is in `Parking`, `Stranding` and `Executor`.
- `src/linked_list.rs`: pointer projections, vtables, pinning and reference counts; the intrusive queue is a sequence with a membership test.
- Internals of mio, sharded-slab, pin-list, `AtomicWaker`, parking_lot and intrusive-collections.
- `src/io/registration.rs`: the retry loops of `poll_io` and `async_io` appear only through the reads and clears they make; what the I/O closure does is outside.
- Dropping a `Readiness` future while its node is listed.
- Start-up of the worker threads, `block_on` with its thread-local bookkeeping, mutex poisoning, panics inside wakers or destructors.
- `src/net/`, `src/io/poll_evented.rs`, the HTTP example, Debug and Display output.
- SyncSlotMap.SlotMap.Pop: describes a call that no push overlaps, because a method has no interleaving; Inconsistent and every race are in `SlotQueue`.
- ReadinessCell.Cell.TryIo: describes a call that no other thread overlaps; clears that race are in `SetReadiness` and `ReadinessRounds`.
- TaskProtocol.QuiescenceAnswersEverything: says nothing of a task that stays queued because no worker is awake; `TaskProtocol.SettledAnswersOrQueues` covers that, and `Stranding` says when it happens.
- TaskObject.Task.Run: describes a call that no other thread overlaps, so RUNNING and NOTIFIED are never met; every race is in `TaskProtocol`.
- Executor.Worker.FindTask: takes the local queue's capacity to be at least 32, which is what `src/lib.rs:75` asks for.
- Bits.UnpackInvertsPack: a field as wide as the whole word is excluded, because `max_value` then shifts by the full word width.
- Bits.TokenRoundTrip: needs one spare bit above address and generation, because a token of all ones would otherwise equal the wake token.
