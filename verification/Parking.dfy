/**
 The worker loop of `src/lib.rs` together with the waking half of `schedule_global` in
 `src/task.rs`, composed with the real parked-worker queue of `SlotQueue`.

 Worker `w` is producer `w` of the slot queue. Any number of other call sites run
 `schedule_global`; a worker that schedules from inside a task is one more such call site.
 A lock operation, a queue operation, a load, a store and a condition-variable call are one
 step each. A condition-variable wait returns only when notified, and a wake of the I/O
 driver stays latched until a poll consumes it.
 */
module Parking {
  import opened Basics
  import opened Sequences
  import SQ = SlotQueue
  import EX = Executor

  type TaskId = EX.TaskId

  datatype WorkerPc =
    | Top           // about to look for a task
    | Running       // inside task.run()
    | FoundNothing  // local and global queue were empty, about to try_lock the driver
    | Driving       // holds the driver, in or entering its poll
    | Driven        // poll returned, still holds the driver
    | Committed     // try_lock failed, about to lock its own parker
    | Registering   // holds its parker, inside parked_workers.push
    | Settling      // holds its parker, about to store Parked and wait
    | Waiting       // in Condvar::wait
    | Notified      // notified, about to take its parker back and clear it

  /** Where one call of `schedule_global` is. */
  datatype CallPc =
    | Absent
    | Inserting(task: TaskId)
    | TryingLock(task: TaskId)
    | Popping
    | Got(index: nat)        // pop returned Ready(index)
    | AtParker(index: nat)   // holds that worker's parker
    | Notifying(index: nat)  // has stored None in it
    | Releasing(index: nat)  // has notified, about to drop the parker guard
    | WakingDriver           // pop was not Ready
    | Unlocking              // about to drop the guard of the parked-worker queue

  datatype Guard = Free | ByWorker | ByCall

  /**
   `announced` is auxiliary: the tasks that were in the global queue when some call last
   notified a worker or woke the driver, and have been there ever since.
   */
  datatype State = State(
    workers: seq<WorkerPc>,
    parked: seq<bool>,          // parker == Some(Parked)
    parkerGuard: seq<Guard>,
    locals: seq<seq<TaskId>>,
    global: seq<TaskId>,
    driver: Option<nat>,        // who holds the I/O driver
    latched: bool,
    calls: seq<CallPc>,
    consumer: Option<nat>,      // which call holds the exclusive half of the queue
    queue: SQ.State,
    announced: set<TaskId>)

  datatype WorkerStep =
    | TakeLocal | LookGlobal | ScheduleLocal(task: TaskId) | FinishRun
    | TryDriver | PollReturns(consumed: bool) | DropDriver
    | LockParker | Register | Wait | WakeUp

  datatype CallStep =
    | Call(task: TaskId) | Insert | TryLock | Pop
    | LockWorker | Inspect | Notify | ReleaseWorker | WakeDriver | Unlock

  datatype Step = OfWorker(w: nat, move: WorkerStep) | OfCall(c: nat, action: CallStep)

  function New(n: nat, calls: nat): State {
    State(seq(n, _ => Top), seq(n, _ => false), seq(n, _ => Free), seq(n, _ => []), [], None, false,
          seq(calls, _ => Absent), None, SQ.New(n, n), {})
  }

  predicate Shaped(s: State) {
    var n := |s.workers|;
    && |s.parked| == |s.parkerGuard| == |s.locals| == n
    && s.queue.cap == |s.queue.producers| == n
    && SQ.WellFormed(s.queue)
    && (forall c :: 0 <= c < |s.calls| ==>
          (s.calls[c].Got? || s.calls[c].AtParker? || s.calls[c].Notifying? || s.calls[c].Releasing?
          ==> s.calls[c].index < n))
  }

  /** The next memory operation of worker `w` inside `parked_workers.push(w)`. */
  function RegisterStep(s: State, w: nat): SQ.Step
    requires Shaped(s) && w < |s.workers|
  {
    match s.queue.producers[w]
    case Quiet => SQ.PushClear(w, w)
    case Cleared(_) => SQ.PushSwap(w)
    case Swapped(_, _) => SQ.PushLink(w)
  }

  predicate WorkerEnabled(s: State, w: nat, move: WorkerStep)
    requires Shaped(s) && w < |s.workers|
  {
    var pc := s.workers[w];
    match move
    case TakeLocal => pc.Top? && s.locals[w] != []
    case LookGlobal => pc.Top? && |s.locals[w]| <= EX.BUSY
    case ScheduleLocal(_) => pc.Running? || pc.Driven?  // by the task, or by the driver's wakes
    case FinishRun => pc.Running?
    case TryDriver => pc.FoundNothing?
    case PollReturns(_) => pc.Driving?
    case DropDriver => pc.Driven?
    case LockParker => pc.Committed? && s.parkerGuard[w].Free?
    case Register => pc.Registering?
    case Wait => pc.Settling?
    case WakeUp => pc.Notified? && s.parkerGuard[w].Free?
  }

  predicate CallEnabled(s: State, c: nat, action: CallStep)
    requires Shaped(s) && c < |s.calls|
  {
    var pc := s.calls[c];
    match action
    case Call(_) => pc.Absent?
    case Insert => pc.Inserting?
    case TryLock => pc.TryingLock?
    case Pop => pc.Popping?
    case LockWorker => pc.Got? && s.parkerGuard[pc.index].Free?
    case Inspect => pc.AtParker?
    case Notify => pc.Notifying?
    case ReleaseWorker => pc.Releasing?
    case WakeDriver => pc.WakingDriver?
    case Unlock => pc.Unlocking?
  }

  /**
   A step is enabled when its thread is at that point and the lock it blocks on is free.
   Nothing here asks whether a pushed index is already queued.
   */
  predicate Enabled(s: State, step: Step) {
    Shaped(s) &&
    match step
    case OfWorker(w, move) => w < |s.workers| && WorkerEnabled(s, w, move)
    case OfCall(c, action) => c < |s.calls| && CallEnabled(s, c, action)
  }

  /** `get_many_global_tasks`: up to four tasks move over, then the local front is run. */
  function ApplyLookGlobal(s: State, w: nat): State
    requires Shaped(s) && w < |s.workers|
  {
    var k := Min(EX.GRAB, |s.global|);
    var local := s.locals[w] + s.global[..k];
    var s := s.(global := s.global[k..], announced := s.announced - set x | x in s.global[..k]);
    if local == [] then s.(workers := s.workers[w := FoundNothing])
    else s.(workers := s.workers[w := Running], locals := s.locals[w := local[1..]])
  }

  ghost function ApplyPop(s: State, c: nat): State
    requires Shaped(s) && c < |s.calls|
  {
    var q' := SQ.Apply(s.queue, SQ.PopStep);
    var pc := match SQ.Emits(s.queue, SQ.PopStep)
      case Popped(Ready(i)) => Got(i)
      case Popped(_) => WakingDriver
      case Silent => Popping
      case Enqueued(_) => Popping;
    s.(queue := q', calls := s.calls[c := pc])
  }

  ghost function ApplyWorker(s: State, w: nat, move: WorkerStep): State
    requires Shaped(s) && w < |s.workers| && WorkerEnabled(s, w, move)
  {
    match move
    case TakeLocal =>
      s.(workers := s.workers[w := Running], locals := s.locals[w := s.locals[w][1..]])
    case LookGlobal => ApplyLookGlobal(s, w)
    case ScheduleLocal(x) => s.(locals := s.locals[w := s.locals[w] + [x]])
    case FinishRun => s.(workers := s.workers[w := Top])
    case TryDriver =>
      if s.driver.None? then s.(driver := Some(w), workers := s.workers[w := Driving])
      else s.(workers := s.workers[w := Committed])
    case PollReturns(consumed) =>
      s.(workers := s.workers[w := Driven], latched := s.latched && !consumed)
    case DropDriver => s.(workers := s.workers[w := Top], driver := None)
    case LockParker =>
      s.(parkerGuard := s.parkerGuard[w := ByWorker],
         workers := s.workers[w := if s.parked[w] then Settling else Registering])
    case Register =>
      var push := RegisterStep(s, w);
      s.(queue := SQ.Apply(s.queue, push),
         workers := if push.PushLink? then s.workers[w := Settling] else s.workers)
    case Wait =>
      s.(parked := s.parked[w := true], parkerGuard := s.parkerGuard[w := Free],
         workers := s.workers[w := Waiting])
    case WakeUp => s.(parked := s.parked[w := false], workers := s.workers[w := Top])
  }

  /** Everything queued now has a wake after it. */
  function Announce(s: State): State {
    s.(announced := set x | x in s.global)
  }

  ghost function ApplyCall(s: State, c: nat, action: CallStep): State
    requires Shaped(s) && c < |s.calls| && CallEnabled(s, c, action)
  {
    match action
    case Call(x) => s.(calls := s.calls[c := Inserting(x)])
    case Insert =>
      var x := s.calls[c].task;
      s.(calls := s.calls[c := TryingLock(x)],
         global := EX.Inserted(s.global, x))
    case TryLock =>
      if s.consumer.None? then s.(calls := s.calls[c := Popping], consumer := Some(c))
      else s.(calls := s.calls[c := Absent])
    case Pop => ApplyPop(s, c)
    case LockWorker =>
      var i := s.calls[c].index;
      s.(calls := s.calls[c := AtParker(i)], parkerGuard := s.parkerGuard[i := ByCall])
    case Inspect =>
      var i := s.calls[c].index;
      if s.parked[i] then s.(calls := s.calls[c := Notifying(i)], parked := s.parked[i := false])
      else s.(calls := s.calls[c := Popping], parkerGuard := s.parkerGuard[i := Free])
    case Notify =>
      var i := s.calls[c].index;
      Announce(s.(calls := s.calls[c := Releasing(i)],
                  workers := if s.workers[i].Waiting? then s.workers[i := Notified] else s.workers))
    case ReleaseWorker =>
      s.(calls := s.calls[c := Unlocking], parkerGuard := s.parkerGuard[s.calls[c].index := Free])
    case WakeDriver => Announce(s.(calls := s.calls[c := Unlocking], latched := true))
    case Unlock => s.(calls := s.calls[c := Absent], consumer := None)
  }

  ghost function Apply(s: State, step: Step): State
    requires Enabled(s, step)
  {
    match step
    case OfWorker(w, move) => ApplyWorker(s, w, move)
    case OfCall(c, action) => ApplyCall(s, c, action)
  }

  // ---------------------------------------------------------------------------
  // The handshake invariant
  // ---------------------------------------------------------------------------

  predicate HoldsConsumer(pc: CallPc) {
    !pc.Absent? && !pc.Inserting? && !pc.TryingLock?
  }

  /** The call that owns the exclusive half of the queue, if any. */
  function Waker(s: State): CallPc {
    if s.consumer.Some? && s.consumer.value < |s.calls| then s.calls[s.consumer.value] else Absent
  }

  /** Popped by the waker, which has yet to look at the worker's parker. */
  predicate Claimed(s: State, w: nat) {
    Waker(s) == Got(w) || Waker(s) == AtParker(w)
  }

  /** `w` is in the slot queue or in the hands of the waker, and not both. */
  predicate OnOffer(s: State, w: nat) {
    (w in SQ.Queue(s.queue)) != Claimed(s, w)
  }

  predicate OffTheBooks(s: State, w: nat)
    requires Shaped(s) && w < |s.workers|
  {
    && !s.parked[w] && s.queue.producers[w].Quiet?
    && w !in SQ.Queue(s.queue) && !Claimed(s, w) && Waker(s) != Notifying(w)
  }

  predicate WorkerInv(s: State, w: nat)
    requires Shaped(s) && w < |s.workers|
  {
    var push := s.queue.producers[w];
    && (push.Quiet? || push.index == w)
    && (s.parkerGuard[w].ByCall? <==> Waker(s) == AtParker(w) || Waker(s) == Notifying(w) || Waker(s) == Releasing(w))
    && (Waker(s) == Releasing(w) ==> s.workers[w].Notified?)
    && (s.parkerGuard[w].ByWorker? <==> s.workers[w].Registering? || s.workers[w].Settling?)
    && match s.workers[w]
       case Registering =>
         && !s.parked[w] && Waker(s) != Notifying(w)
         && if push.Swapped? then OnOffer(s, w) else w !in SQ.Queue(s.queue) && !Claimed(s, w)
       case Settling => !s.parked[w] && Waker(s) != Notifying(w) && push.Quiet? && OnOffer(s, w)
       case Waiting =>
         && push.Quiet?
         && if s.parked[w] then OnOffer(s, w) && Waker(s) != Notifying(w)
            else Waker(s) == Notifying(w) && w !in SQ.Queue(s.queue)
       case Notified => OffTheBooks(s, w)
       case _ => OffTheBooks(s, w) && s.parkerGuard[w].Free?
  }

  ghost predicate LockInv(s: State) {
    && (forall c :: 0 <= c < |s.calls| ==> (HoldsConsumer(s.calls[c]) <==> s.consumer == Some(c)))
    && (s.consumer.Some? ==> s.consumer.value < |s.calls|)
    && (!s.queue.consumer.Resting? ==> Waker(s).Popping?)
    && (forall w :: 0 <= w < |s.workers| ==>
          (s.workers[w].Driving? || s.workers[w].Driven? <==> s.driver == Some(w)))
    && (s.driver.Some? ==> s.driver.value < |s.workers|)
  }

  /** Everything but the insides of the slot queue. */
  ghost predicate Books(s: State) {
    && Shaped(s)
    && LockInv(s)
    && (forall w :: 0 <= w < |s.workers| ==> WorkerInv(s, w))
  }

  ghost predicate HandshakeInv(s: State) {
    Books(s) && SQ.Inv(s.queue)
  }

  // ---------------------------------------------------------------------------
  // Somebody is always up, and announced work is covered
  // ---------------------------------------------------------------------------

  predicate Parks(pc: WorkerPc) {
    pc.Committed? || pc.Registering? || pc.Settling? || pc.Waiting?
  }

  ghost predicate SomeoneUp(s: State) {
    exists w :: 0 <= w < |s.workers| && !Parks(s.workers[w])
  }

  /** This worker will look at the global queue before it can block. */
  predicate WillLook(pc: WorkerPc) {
    pc.Top? || pc.Running? || pc.Driven? || pc.Notified?
  }

  predicate AtDriver(pc: WorkerPc) {
    pc.FoundNothing? || pc.Driving?
  }

  ghost predicate Covered(s: State) {
    || (exists w :: 0 <= w < |s.workers| && WillLook(s.workers[w]))
    || (s.latched && exists w :: 0 <= w < |s.workers| && AtDriver(s.workers[w]))
  }

  ghost predicate CoverInv(s: State) {
    && SomeoneUp(s)
    && (forall x :: x in s.announced ==> x in s.global)
    && (s.announced != {} ==> Covered(s))
  }

  ghost predicate Inv(s: State) {
    HandshakeInv(s) && CoverInv(s)
  }

  // ---------------------------------------------------------------------------
  // Every step keeps the invariant
  // ---------------------------------------------------------------------------

  lemma NewInv(n: nat, calls: nat)
    requires n > 0
    ensures Inv(New(n, calls))
  {
    SQ.NewInv(n, n);
    assert WillLook(New(n, calls).workers[0]);
  }

  /** A worker the step did not touch keeps its part of the invariant. */
  lemma WorkerInvFrame(s: State, s': State, v: nat)
    requires Shaped(s) && Shaped(s') && v < |s.workers| == |s'.workers| && WorkerInv(s, v)
    requires s'.queue.producers[v] == s.queue.producers[v]
    requires v in SQ.Queue(s'.queue) <==> v in SQ.Queue(s.queue)
    requires s'.workers[v] == s.workers[v] && s'.parked[v] == s.parked[v]
    requires s'.parkerGuard[v] == s.parkerGuard[v]
    requires Claimed(s', v) == Claimed(s, v)
    requires (Waker(s') == Notifying(v)) == (Waker(s) == Notifying(v))
    requires (Waker(s') == AtParker(v)) == (Waker(s) == AtParker(v))
    requires (Waker(s') == Releasing(v)) == (Waker(s) == Releasing(v))
    ensures WorkerInv(s', v)
  {
  }

  predicate TouchesParker(move: WorkerStep) {
    move.LockParker? || move.Wait? || move.WakeUp?
  }

  predicate AtTheDriver(move: WorkerStep) {
    move.TryDriver? || move.PollReturns? || move.DropDriver?
  }

  lemma LookGlobalKeepsBooks(s: State, w: nat)
    requires Books(s) && Enabled(s, OfWorker(w, LookGlobal))
    ensures Books(ApplyLookGlobal(s, w))
  {
    var s' := ApplyLookGlobal(s, w);
    assert Shaped(s') && s'.queue == s.queue && Waker(s') == Waker(s);
    forall v | 0 <= v < |s.workers| ensures WorkerInv(s', v) {
      assert WorkerInv(s, v);
      if v != w {
        WorkerInvFrame(s, s', v);
      }
    }
  }

  /** Taking local tasks and running them. */
  lemma TaskMoveKeepsBooks(s: State, w: nat, move: WorkerStep)
    requires Books(s) && Enabled(s, OfWorker(w, move))
    requires move.TakeLocal? || move.ScheduleLocal? || move.FinishRun?
    ensures Books(Apply(s, OfWorker(w, move)))
  {
    var s' := Apply(s, OfWorker(w, move));
    assert Shaped(s') && s'.queue == s.queue && Waker(s') == Waker(s);
    forall v | 0 <= v < |s.workers| ensures WorkerInv(s', v) {
      assert WorkerInv(s, v);
      if v != w {
        WorkerInvFrame(s, s', v);
      }
    }
  }

  lemma DriverMoveKeepsBooks(s: State, w: nat, move: WorkerStep)
    requires Books(s) && Enabled(s, OfWorker(w, move)) && AtTheDriver(move)
    ensures Books(Apply(s, OfWorker(w, move)))
  {
    var s' := Apply(s, OfWorker(w, move));
    assert Shaped(s') && s'.queue == s.queue && Waker(s') == Waker(s);
    forall v | 0 <= v < |s.workers| ensures WorkerInv(s', v) {
      assert WorkerInv(s, v);
      if v != w {
        WorkerInvFrame(s, s', v);
      }
    }
  }

  lemma ParkerMoveKeepsBooks(s: State, w: nat, move: WorkerStep)
    requires Books(s) && Enabled(s, OfWorker(w, move)) && TouchesParker(move)
    ensures Books(Apply(s, OfWorker(w, move)))
  {
    var s' := Apply(s, OfWorker(w, move));
    assert Shaped(s') && s'.queue == s.queue && Waker(s') == Waker(s);
    forall v | 0 <= v < |s.workers| ensures WorkerInv(s', v) {
      assert WorkerInv(s, v);
      if v != w {
        WorkerInvFrame(s, s', v);
      }
    }
  }

  /** The queue's push precondition holds whenever a worker registers. */
  lemma RegisterPermitted(s: State, w: nat)
    requires HandshakeInv(s) && Enabled(s, OfWorker(w, Register))
    ensures SQ.Enabled(s.queue, RegisterStep(s, w))
  {
    assert WorkerInv(s, w);
    forall t | 0 <= t < |s.queue.producers| && t != w && s.queue.producers[t].Cleared?
      ensures s.queue.producers[t].index != w
    {
      assert WorkerInv(s, t);
    }
  }

  /** Who is queued before and after, as far as the books are concerned. */
  ghost predicate QueueMoved(q: SQ.State, q': SQ.State, e: SQ.Event) {
    match e
    case Enqueued(i) => forall x :: x in SQ.Queue(q') <==> x in SQ.Queue(q) || x == i
    case Popped(Ready(i)) => i in SQ.Queue(q) && forall x :: x in SQ.Queue(q') <==> x in SQ.Queue(q) && x != i
    case _ => SQ.Queue(q') == SQ.Queue(q)
  }

  lemma RegisterKeepsBooks(s: State, w: nat, s': State)
    requires Books(s) && Enabled(s, OfWorker(w, Register)) && Shaped(s')
    requires s' == Apply(s, OfWorker(w, Register))
    requires QueueMoved(s.queue, s'.queue, SQ.Emits(s.queue, RegisterStep(s, w)))
    ensures Books(s')
  {
    assert WorkerInv(s, w);
    forall v | 0 <= v < |s.workers| ensures WorkerInv(s', v) {
      assert WorkerInv(s, v);
      if v != w {
        WorkerInvFrame(s, s', v);
      }
    }
  }

  lemma RegisterKeepsHandshake(s: State, w: nat)
    requires HandshakeInv(s) && Enabled(s, OfWorker(w, Register))
    ensures HandshakeInv(Apply(s, OfWorker(w, Register)))
  {
    RegisterPermitted(s, w);
    SQ.StepContract(s.queue, RegisterStep(s, w));
    RegisterKeepsBooks(s, w, Apply(s, OfWorker(w, Register)));
  }

  lemma PopKeepsBooks(s: State, c: nat, s': State)
    requires Books(s) && Enabled(s, OfCall(c, Pop)) && Shaped(s')
    requires s' == Apply(s, OfCall(c, Pop)) && s'.queue.producers == s.queue.producers
    requires SQ.Emits(s.queue, SQ.PopStep).Popped? ==> s'.queue.consumer.Resting?
    requires QueueMoved(s.queue, s'.queue, SQ.Emits(s.queue, SQ.PopStep))
    ensures Books(s')
  {
    assert s.consumer == Some(c) && Waker(s).Popping?;
    forall v | 0 <= v < |s.workers| ensures WorkerInv(s', v) {
      assert WorkerInv(s, v);
    }
  }

  lemma PopKeepsHandshake(s: State, c: nat)
    requires HandshakeInv(s) && Enabled(s, OfCall(c, Pop))
    ensures HandshakeInv(Apply(s, OfCall(c, Pop)))
  {
    SQ.StepContract(s.queue, SQ.PopStep);
    PopKeepsBooks(s, c, Apply(s, OfCall(c, Pop)));
  }

  /** Calls that do not own the queue's exclusive half yet. */
  lemma OutsideCallKeepsBooks(s: State, c: nat, action: CallStep)
    requires Books(s) && Enabled(s, OfCall(c, action)) && (action.Call? || action.Insert?)
    ensures Books(Apply(s, OfCall(c, action)))
  {
    var s' := Apply(s, OfCall(c, action));
    assert s'.queue == s.queue && s.consumer != Some(c) && Waker(s') == Waker(s);
    forall v | 0 <= v < |s.workers| ensures WorkerInv(s', v) {
      assert WorkerInv(s, v);
      WorkerInvFrame(s, s', v);
    }
  }

  lemma TryLockKeepsBooks(s: State, c: nat)
    requires Books(s) && Enabled(s, OfCall(c, TryLock))
    ensures Books(Apply(s, OfCall(c, TryLock)))
  {
    var s' := Apply(s, OfCall(c, TryLock));
    assert s'.queue == s.queue && s.consumer != Some(c);
    assert Waker(s') == Waker(s) || (Waker(s).Absent? && Waker(s').Popping?);
    forall v | 0 <= v < |s.workers| ensures WorkerInv(s', v) {
      assert WorkerInv(s, v);
      WorkerInvFrame(s, s', v);
    }
  }

  /** The waker when it deals with no worker: waking the driver, giving the lock back. */
  lemma LeavingCallKeepsBooks(s: State, c: nat, action: CallStep)
    requires Books(s) && Enabled(s, OfCall(c, action)) && (action.Unlock? || action.WakeDriver?)
    ensures Books(Apply(s, OfCall(c, action)))
  {
    var s' := Apply(s, OfCall(c, action));
    assert s'.queue == s.queue && Waker(s) == s.calls[c];
    forall v | 0 <= v < |s.workers| ensures WorkerInv(s', v) {
      assert WorkerInv(s, v);
      WorkerInvFrame(s, s', v);
    }
  }

  /** The waker takes and drops the parker of the worker it popped. */
  lemma GuardCallKeepsBooks(s: State, c: nat, action: CallStep)
    requires Books(s) && Enabled(s, OfCall(c, action)) && (action.LockWorker? || action.ReleaseWorker?)
    ensures Books(Apply(s, OfCall(c, action)))
  {
    var s' := Apply(s, OfCall(c, action));
    var i := s.calls[c].index;
    assert s.consumer == Some(c) && Waker(s) == s.calls[c] && s'.queue == s.queue;
    assert WorkerInv(s, i);
    forall v | 0 <= v < |s.workers| ensures WorkerInv(s', v) {
      assert WorkerInv(s, v);
      if v != i {
        WorkerInvFrame(s, s', v);
      }
    }
  }

  /** The waker clears that parker and notifies the worker. */
  lemma ParkerCallKeepsBooks(s: State, c: nat, action: CallStep)
    requires Books(s) && Enabled(s, OfCall(c, action)) && (action.Inspect? || action.Notify?)
    ensures Books(Apply(s, OfCall(c, action)))
  {
    var s' := Apply(s, OfCall(c, action));
    var i := s.calls[c].index;
    assert s.consumer == Some(c) && Waker(s) == s.calls[c] && s'.queue == s.queue;
    assert WorkerInv(s, i);
    forall v | 0 <= v < |s.workers| ensures WorkerInv(s', v) {
      assert WorkerInv(s, v);
      if v != i {
        WorkerInvFrame(s, s', v);
      }
    }
  }

  /** A worker commits to parking only while another one holds the driver. */
  lemma WorkerLeavesSomeoneUp(s: State, w: nat, move: WorkerStep)
    requires LockInv(s) && SomeoneUp(s) && Enabled(s, OfWorker(w, move))
    ensures SomeoneUp(Apply(s, OfWorker(w, move)))
  {
    var s' := Apply(s, OfWorker(w, move));
    var u :| 0 <= u < |s.workers| && !Parks(s.workers[u]);
    if move.TryDriver? && s.driver.Some? {
      assert !Parks(s'.workers[s.driver.value]);
    } else if u != w {
      assert !Parks(s'.workers[u]);
    } else {
      assert !Parks(s'.workers[w]);
    }
  }

  lemma WorkerLeavesCovered(s: State, w: nat, move: WorkerStep)
    requires LockInv(s) && Covered(s) && Enabled(s, OfWorker(w, move))
    requires move.LookGlobal? ==> s.global != []
    ensures Covered(Apply(s, OfWorker(w, move)))
  {
    var s' := Apply(s, OfWorker(w, move));
    if move.TryDriver? {
      var d := if s.driver.Some? then s.driver.value else w;
      assert AtDriver(s'.workers[d]) || WillLook(s'.workers[d]);
    }
    assert move.PollReturns? ==> WillLook(s'.workers[w]);
    if v :| 0 <= v < |s.workers| && WillLook(s.workers[v]) {
      assert WillLook(s'.workers[v]);
    } else {
      var v :| 0 <= v < |s.workers| && AtDriver(s.workers[v]);
      assert AtDriver(s'.workers[v]) || WillLook(s'.workers[v]) || move.TryDriver?;
    }
  }

  lemma WorkerKeepsCover(s: State, w: nat, move: WorkerStep)
    requires LockInv(s) && CoverInv(s) && Enabled(s, OfWorker(w, move))
    ensures CoverInv(Apply(s, OfWorker(w, move)))
  {
    WorkerLeavesSomeoneUp(s, w, move);
    if s.announced != {} {
      var x :| x in s.announced;
      WorkerLeavesCovered(s, w, move);
    }
  }

  lemma CallKeepsCover(s: State, c: nat, action: CallStep)
    requires Inv(s) && Enabled(s, OfCall(c, action))
    ensures CoverInv(Apply(s, OfCall(c, action)))
  {
    var s' := Apply(s, OfCall(c, action));
    var u :| 0 <= u < |s.workers| && !Parks(s.workers[u]);
    assert !Parks(s'.workers[u]);
    if action.Notify? {
      NotifyReachesSleeper(s, c);
      assert WillLook(s'.workers[s.calls[c].index]);
    } else if action.WakeDriver? {
      assert AtDriver(s'.workers[u]) || WillLook(s'.workers[u]);
    } else if s.announced != {} {
      assert s'.workers == s.workers;
    }
  }

  /**
   The waker always finds `Parked`, so its `None => continue` arm is dead, and its
   notification always reaches a worker that is waiting.
   */
  lemma NotifyReachesSleeper(s: State, c: nat)
    requires HandshakeInv(s) && c < |s.calls|
    ensures s.calls[c].AtParker? ==> s.parked[s.calls[c].index]
    ensures s.calls[c].Notifying? ==> s.workers[s.calls[c].index].Waiting?
  {
    if s.calls[c].AtParker? || s.calls[c].Notifying? {
      assert Waker(s) == s.calls[c];
      assert WorkerInv(s, s.calls[c].index);
    }
  }

  lemma StepKeepsInv(s: State, step: Step)
    requires Inv(s) && Enabled(s, step)
    ensures Inv(Apply(s, step))
  {
    match step
    case OfWorker(w, move) =>
      WorkerKeepsCover(s, w, move);
      if move.Register? {
        RegisterKeepsHandshake(s, w);
      } else if TouchesParker(move) {
        ParkerMoveKeepsBooks(s, w, move);
      } else if AtTheDriver(move) {
        DriverMoveKeepsBooks(s, w, move);
      } else if move.LookGlobal? {
        LookGlobalKeepsBooks(s, w);
      } else {
        TaskMoveKeepsBooks(s, w, move);
      }
    case OfCall(c, action) =>
      CallKeepsCover(s, c, action);
      if action.Pop? {
        PopKeepsHandshake(s, c);
      } else if action.LockWorker? || action.ReleaseWorker? {
        GuardCallKeepsBooks(s, c, action);
      } else if action.Inspect? || action.Notify? {
        ParkerCallKeepsBooks(s, c, action);
      } else if action.Unlock? || action.WakeDriver? {
        LeavingCallKeepsBooks(s, c, action);
      } else if action.TryLock? {
        TryLockKeepsBooks(s, c);
      } else {
        OutsideCallKeepsBooks(s, c, action);
      }
  }

  // ---------------------------------------------------------------------------
  // Whole runs
  // ---------------------------------------------------------------------------

  ghost predicate IsRun(s: State, steps: seq<Step>)
    decreases |steps|, 0
  {
    steps == [] || (IsRun(s, Init(steps)) && Enabled(After(s, Init(steps)), Last(steps)))
  }

  ghost function After(s: State, steps: seq<Step>): State
    requires IsRun(s, steps)
    decreases |steps|, 1
  {
    if steps == [] then s else Apply(After(s, Init(steps)), Last(steps))
  }

  ghost predicate Reachable(n: nat, calls: nat, s: State) {
    exists steps :: IsRun(New(n, calls), steps) && s == After(New(n, calls), steps)
  }

  lemma {:induction false} RunInv(n: nat, calls: nat, steps: seq<Step>)
    requires n > 0 && IsRun(New(n, calls), steps)
    ensures Inv(After(New(n, calls), steps)) && |After(New(n, calls), steps).workers| == n
  {
    if steps == [] {
      NewInv(n, calls);
    } else {
      RunInv(n, calls, Init(steps));
      StepKeepsInv(After(New(n, calls), Init(steps)), Last(steps));
    }
  }

  lemma ReachableInv(n: nat, calls: nat, s: State)
    requires n > 0 && Reachable(n, calls, s)
    ensures Inv(s) && |s.workers| == n
  {
    var steps :| IsRun(New(n, calls), steps) && s == After(New(n, calls), steps);
    RunInv(n, calls, steps);
  }

  /** For any worker count, no run reaches a state where every worker is parked or parking. */
  lemma NeverAllParked(n: nat, calls: nat, s: State)
    requires n > 0 && Reachable(n, calls, s)
    ensures |s.workers| == n && exists w :: 0 <= w < n && !Parks(s.workers[w])
  {
    ReachableInv(n, calls, s);
  }

  predicate Holds(pc: CallPc, w: nat) {
    pc == Got(w) || pc == AtParker(w)
  }

  /**
   In every run a parked worker's index is in the queue exactly once and held by no waker, or
   out of the queue and held by exactly one.
   */
  lemma ParkedWorkerIsOnOffer(n: nat, calls: nat, s: State, w: nat)
    requires n > 0 && Reachable(n, calls, s)
    requires w < |s.workers| == |s.parked| && s.workers[w].Waiting? && s.parked[w]
    ensures var queued := multiset(s.queue.chain)[w];
            || (queued == 1 && forall c :: 0 <= c < |s.calls| ==> !Holds(s.calls[c], w))
            || (queued == 0 && exists c :: 0 <= c < |s.calls| && Holds(s.calls[c], w)
                                 && forall d :: 0 <= d < |s.calls| && d != c ==> !Holds(s.calls[d], w))
  {
    ReachableInv(n, calls, s);
    assert WorkerInv(s, w);
    SQ.NothingQueuedTwice(s.queue);
    assert forall c :: 0 <= c < |s.calls| && Holds(s.calls[c], w) ==> s.consumer == Some(c);
    assert w in s.queue.chain <==> w in SQ.Queue(s.queue);
  }

  /** Whenever a worker is about to push its index, the queue's precondition holds. */
  lemma PushAlwaysPermitted(n: nat, calls: nat, s: State, w: nat)
    requires n > 0 && Reachable(n, calls, s) && Enabled(s, OfWorker(w, Register))
    ensures SQ.Enabled(s.queue, RegisterStep(s, w))
  {
    ReachableInv(n, calls, s);
    RegisterPermitted(s, w);
  }

  /** In every run each task is in the global queue at most once. */
  lemma {:induction false} QueuedOnce(n: nat, calls: nat, steps: seq<Step>)
    requires IsRun(New(n, calls), steps)
    ensures Distinct(After(New(n, calls), steps).global)
  {
    if steps != [] {
      QueuedOnce(n, calls, Init(steps));
      StaysDistinct(After(New(n, calls), Init(steps)), Last(steps));
    }
  }

  lemma StaysDistinct(s: State, step: Step)
    requires Enabled(s, step) && Distinct(s.global)
    ensures Distinct(Apply(s, step).global)
  {
    if step.OfWorker? && step.move.LookGlobal? {
      assert Distinct(ApplyLookGlobal(s, step.w).global);
    } else if step.OfCall? && step.action.Insert? {
      assert Distinct(EX.Inserted(s.global, s.calls[step.c].task));
    } else {
      SameQueue(s, step);
    }
  }

  lemma SameQueue(s: State, step: Step)
    requires Enabled(s, step)
    requires step.OfWorker? ==> !step.move.LookGlobal?
    requires step.OfCall? ==> !step.action.Insert?
    ensures Apply(s, step).global == s.global
  {
  }

  // ---------------------------------------------------------------------------
  // When queued work can be stranded
  // ---------------------------------------------------------------------------

  predicate Blocked(s: State, w: nat)
    requires w < |s.workers|
  {
    s.workers[w].Waiting? || (s.workers[w].Driving? && !s.latched)
  }

  /** Work is queued, every worker is blocked, and no call is left that could wake one. */
  ghost predicate Stranded(s: State) {
    && s.global != []
    && (forall w :: 0 <= w < |s.workers| ==> Blocked(s, w))
    && (forall c :: 0 <= c < |s.calls| ==> s.calls[c].Absent?)
  }

  /** Work that a wake has followed is covered in every run, hence never stranded. */
  lemma AnnouncedIsNeverStranded(n: nat, calls: nat, s: State)
    requires n > 0 && Reachable(n, calls, s)
    ensures s.announced != {} ==> Covered(s)
    ensures Stranded(s) ==> s.announced == {}
  {
    ReachableInv(n, calls, s);
    assert forall w :: 0 <= w < |s.workers| && Blocked(s, w) ==>
        !WillLook(s.workers[w]) && (s.latched ==> !AtDriver(s.workers[w]));
  }
}
