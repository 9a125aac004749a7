/**
 When queued work is left with every worker asleep: the race for the parked-worker lock in
 `schedule_global` of `src/task.rs`, and exactly when losing it can do that.
 */
module Stranding {
  import opened Basics
  import opened Sequences
  import opened Parking

  // ---------------------------------------------------------------------------
  // Runs made of some kinds of steps only
  // ---------------------------------------------------------------------------

  predicate AllSteps(steps: seq<Step>, ok: Step -> bool) {
    forall k :: 0 <= k < |steps| ==> ok(steps[k])
  }

  /** Some run of `ok` steps goes from `s` to `t`. */
  ghost predicate Leads(s: State, t: State, ok: Step -> bool) {
    exists steps :: IsRun(s, steps) && AllSteps(steps, ok) && After(s, steps) == t
  }

  lemma LeadsNowhere(s: State, ok: Step -> bool)
    ensures Leads(s, s, ok)
  {
    assert IsRun(s, []) && AllSteps([], ok) && After(s, []) == s;
  }

  lemma LeadsFurther(s: State, t: State, step: Step, ok: Step -> bool)
    requires Leads(s, t, ok) && Enabled(t, step) && ok(step)
    ensures Leads(s, Apply(t, step), ok)
  {
    var steps :| IsRun(s, steps) && AllSteps(steps, ok) && After(s, steps) == t;
    assert Init(steps + [step]) == steps && Last(steps + [step]) == step;
    assert IsRun(s, steps + [step]) && AllSteps(steps + [step], ok) && After(s, steps + [step]) == Apply(t, step);
  }

  predicate ByWorker(step: Step) { step.OfWorker? }

  /** Nobody schedules `x` again. */
  function NoCallFor(x: TaskId): Step -> bool {
    (step: Step) => !(step.OfCall? && step.action == Call(x))
  }

  // ---------------------------------------------------------------------------
  // Left to themselves, workers that nothing covers all fall asleep
  // ---------------------------------------------------------------------------

  predicate NoCalls(s: State) {
    forall c :: 0 <= c < |s.calls| ==> s.calls[c].Absent?
  }

  ghost predicate Doomed(s: State) {
    Inv(s) && s.global != [] && NoCalls(s) && !Covered(s)
  }

  lemma DoomedPcs(s: State, w: nat)
    requires Doomed(s) && w < |s.workers|
    ensures !s.latched && !WillLook(s.workers[w])
  {
    var u :| 0 <= u < |s.workers| && !Parks(s.workers[u]);
    assert AtDriver(s.workers[u]);
  }

  function NextMove(pc: WorkerPc): WorkerStep {
    match pc
    case FoundNothing => TryDriver
    case Committed => LockParker
    case Registering => Register
    case _ => Wait
  }

  /** How many moves worker `w` is from its sleep. */
  function Rank(s: State, w: nat): nat
    requires Shaped(s) && w < |s.workers|
  {
    match s.workers[w]
    case FoundNothing => 6
    case Committed => 5
    case Registering => (match s.queue.producers[w] case Quiet => 4 case Cleared(_) => 3 case Swapped(_, _) => 2)
    case Settling => 1
    case _ => 0
  }

  /** A worker on its way to sleep can move, and comes closer to it. */
  lemma DoomedMove(s: State, w: nat)
    requires Doomed(s) && w < |s.workers| && !Blocked(s, w)
    ensures Enabled(s, OfWorker(w, NextMove(s.workers[w])))
    ensures var t := Apply(s, OfWorker(w, NextMove(s.workers[w])));
            && t.global == s.global && t.calls == s.calls && t.latched == s.latched
            && |t.workers| == |s.workers| && t.workers == s.workers[w := t.workers[w]] && !WillLook(t.workers[w])
            && Shaped(t) && Rank(t, w) < Rank(s, w)
  {
    DoomedPcs(s, w);
    if s.workers[w].Registering? {
      RegisterMove(s, w);
    } else {
      assert WorkerInv(s, w) && Waker(s).Absent?;
    }
  }

  lemma RegisterMove(s: State, w: nat)
    requires Shaped(s) && w < |s.workers| && s.workers[w].Registering?
    ensures var t := Apply(s, OfWorker(w, Register));
            && t.global == s.global && t.calls == s.calls && t.latched == s.latched
            && |t.workers| == |s.workers| && t.workers == s.workers[w := t.workers[w]] && !WillLook(t.workers[w])
            && Shaped(t) && Rank(t, w) < Rank(s, w)
  {
    SQ.StepShape(s.queue, RegisterStep(s, w));
  }

  lemma DoomedStays(s: State, w: nat)
    requires Doomed(s) && w < |s.workers| && !Blocked(s, w)
    ensures Enabled(s, OfWorker(w, NextMove(s.workers[w]))) && Doomed(Apply(s, OfWorker(w, NextMove(s.workers[w]))))
  {
    DoomedMove(s, w);
    StepKeepsInv(s, OfWorker(w, NextMove(s.workers[w])));
    forall v | 0 <= v < |s.workers| ensures !WillLook(s.workers[v]) && !s.latched {
      DoomedPcs(s, v);
    }
  }

  lemma SettleWorker(s0: State, s: State, w: nat, ok: Step -> bool) returns (t: State)
    requires Leads(s0, s, ok) && (forall v, move :: ok(OfWorker(v, move)))
    requires Doomed(s) && w < |s.workers|
    ensures Leads(s0, t, ok) && Doomed(t) && t.global == s.global
    ensures |t.workers| == |s.workers| && t.workers == s.workers[w := t.workers[w]] && Blocked(t, w)
    decreases Rank(s, w)
  {
    DoomedPcs(s, w);
    if Blocked(s, w) {
      t := s;
    } else {
      DoomedMove(s, w);
      DoomedStays(s, w);
      LeadsFurther(s0, s, OfWorker(w, NextMove(s.workers[w])), ok);
      t := SettleWorker(s0, Apply(s, OfWorker(w, NextMove(s.workers[w]))), w, ok);
    }
  }

  lemma SettleFrom(s0: State, s: State, k: nat, ok: Step -> bool) returns (t: State)
    requires Leads(s0, s, ok) && (forall v, move :: ok(OfWorker(v, move)))
    requires Doomed(s) && k <= |s.workers| && forall w :: 0 <= w < k ==> Blocked(s, w)
    ensures Leads(s0, t, ok) && Stranded(t) && t.global == s.global
    decreases |s.workers| - k
  {
    if k == |s.workers| {
      t := s;
    } else {
      var m := SettleWorker(s0, s, k, ok);
      forall w | 0 <= w < k + 1 ensures Blocked(m, w) {
        DoomedPcs(m, w);
        assert w < k ==> Blocked(s, w) && m.workers[w] == s.workers[w];
      }
      t := SettleFrom(s0, m, k + 1, ok);
    }
  }

  lemma StrandedIsUncovered(s: State)
    requires Stranded(s)
    ensures !Covered(s)
  {
    assert forall w :: 0 <= w < |s.workers| && Blocked(s, w) ==>
        !WillLook(s.workers[w]) && (s.latched ==> !AtDriver(s.workers[w]));
  }

  /** Workers alone uncover work only by taking all of it. */
  lemma {:induction false} WorkersKeepCover(s: State, steps: seq<Step>)
    requires Inv(s) && Covered(s) && IsRun(s, steps) && AllSteps(steps, ByWorker)
    ensures Inv(After(s, steps)) && (Covered(After(s, steps)) || After(s, steps).global == [])
  {
    if steps != [] {
      WorkersKeepCover(s, Init(steps));
      var t := After(s, Init(steps));
      assert Last(steps).OfWorker?;
      StepKeepsInv(t, Last(steps));
      WorkerKeepsCoverOrDrains(t, Last(steps).w, Last(steps).move);
    }
  }

  lemma WorkerKeepsCoverOrDrains(s: State, w: nat, move: WorkerStep)
    requires LockInv(s) && Enabled(s, OfWorker(w, move)) && (Covered(s) || s.global == [])
    ensures var t := Apply(s, OfWorker(w, move)); Covered(t) || t.global == []
  {
    if s.global != [] {
      WorkerLeavesCovered(s, w, move);
    }
  }

  /** With no call left, the workers can strand what is queued exactly if nothing covers it. */
  lemma StrandsIffUncovered(n: nat, calls: nat, s: State)
    requires n > 0 && Reachable(n, calls, s) && s.global != [] && NoCalls(s)
    ensures (exists t :: Leads(s, t, ByWorker) && Stranded(t)) <==> !Covered(s)
  {
    ReachableInv(n, calls, s);
    if Covered(s) {
      forall t | Leads(s, t, ByWorker) ensures !Stranded(t) {
        var steps :| IsRun(s, steps) && AllSteps(steps, ByWorker) && After(s, steps) == t;
        WorkersKeepCover(s, steps);
        if Stranded(t) {
          StrandedIsUncovered(t);
        }
      }
    } else {
      LeadsNowhere(s, ByWorker);
      var t := SettleFrom(s, s, 0, ByWorker);
    }
  }

  // ---------------------------------------------------------------------------
  // Losing to a holder that is done can strand
  // ---------------------------------------------------------------------------

  /** The parked-worker lock is about to be dropped, its holder's wake used up. */
  ghost predicate TooLate(s: State) {
    Waker(s).Unlocking? && !Covered(s)
  }

  /** Where `x`, queued in `s0`, may be by now: still queued, and still too late. */
  ghost predicate Losing(s0: State, s: State, x: TaskId) {
    Leads(s0, s, NoCallFor(x)) && Inv(s) && TooLate(s) && x in s.global
  }

  /** A step of another call than the holder changes nothing about that. */
  lemma LoserStep(s0: State, s: State, d: nat, action: CallStep, x: TaskId) returns (t: State)
    requires Losing(s0, s, x) && Enabled(s, OfCall(d, action)) && (action.Insert? || action.TryLock?)
    ensures Losing(s0, t, x) && t.consumer == s.consumer
    ensures |t.calls| == |s.calls| && t.calls == s.calls[d := t.calls[d]]
    ensures if action.Insert? then t.calls[d].TryingLock? else t.calls[d].Absent?
  {
    assert s.consumer.Some? && s.consumer != Some(d);
    t := Apply(s, OfCall(d, action));
    StepKeepsInv(s, OfCall(d, action));
    LeadsFurther(s0, s, OfCall(d, action), NoCallFor(x));
    SameCover(s, t);
  }

  lemma SameCover(s: State, t: State)
    requires t.workers == s.workers && t.latched == s.latched
    ensures Covered(t) <==> Covered(s)
  {
  }

  /** Call `d`, if it is under way and not the holder, inserts its task and loses the lock. */
  lemma LoseCall(s0: State, s: State, d: nat, x: TaskId) returns (t: State)
    requires Losing(s0, s, x) && d < |s.calls| && s.consumer != Some(d)
    ensures Losing(s0, t, x) && t.consumer == s.consumer
    ensures |t.calls| == |s.calls| && t.calls == s.calls[d := t.calls[d]] && t.calls[d].Absent?
    decreases s.calls[d].Inserting?
  {
    assert !HoldsConsumer(s.calls[d]);
    if s.calls[d].Inserting? {
      var m := LoserStep(s0, s, d, Insert, x);
      t := LoseCall(s0, m, d, x);
    } else if s.calls[d].TryingLock? {
      t := LoserStep(s0, s, d, TryLock, x);
    } else {
      t := s;
    }
  }

  lemma LoseCallsFrom(s0: State, s: State, d: nat, x: TaskId) returns (t: State)
    requires Losing(s0, s, x) && d <= |s.calls|
    requires forall c :: 0 <= c < d ==> s.calls[c].Absent? || s.consumer == Some(c)
    ensures Losing(s0, t, x)
    ensures forall c :: 0 <= c < |t.calls| ==> t.calls[c].Absent? || t.consumer == Some(c)
    decreases |s.calls| - d
  {
    if d == |s.calls| {
      t := s;
    } else if s.consumer == Some(d) {
      t := LoseCallsFrom(s0, s, d + 1, x);
    } else {
      var m := LoseCall(s0, s, d, x);
      t := LoseCallsFrom(s0, m, d + 1, x);
    }
  }

  /** Everybody else loses too, the holder leaves, the workers go to sleep. */
  lemma TooLateStrands(s0: State, s: State, x: TaskId) returns (t: State)
    requires Losing(s0, s, x)
    ensures Leads(s0, t, NoCallFor(x)) && Stranded(t) && x in t.global
  {
    var m := LoseCallsFrom(s0, s, 0, x);
    var leave := OfCall(m.consumer.value, Unlock);
    StepKeepsInv(m, leave);
    LeadsFurther(s0, m, leave, NoCallFor(x));
    SameCover(m, Apply(m, leave));
    t := SettleFrom(s0, Apply(m, leave), 0, NoCallFor(x));
  }

  // ---------------------------------------------------------------------------
  // Nothing else can
  // ---------------------------------------------------------------------------

  /** A call that holds the parked-worker lock and has yet to wake someone. */
  predicate WillWake(pc: CallPc) {
    pc.Popping? || pc.Got? || pc.AtParker? || pc.Notifying? || pc.WakingDriver?
  }

  ghost predicate WakeToCome(s: State) {
    exists c :: 0 <= c < |s.calls| && WillWake(s.calls[c])
  }

  ghost predicate SomeTries(s: State) {
    exists c :: 0 <= c < |s.calls| && s.calls[c].TryingLock?
  }

  predicate NobodyInserts(s: State, x: TaskId) {
    forall c :: 0 <= c < |s.calls| ==> s.calls[c] != Inserting(x)
  }

  /** `x` has been taken, or is covered, or a wake is bound to come that covers it. */
  ghost predicate Safe(s: State, x: TaskId) {
    x !in s.global || Covered(s) || WakeToCome(s) || (s.consumer.None? && SomeTries(s))
  }

  lemma HolderIsDone(s: State)
    requires Inv(s) && s.consumer.Some? && !WakeToCome(s)
    ensures Waker(s).Unlocking? || (Waker(s).Releasing? && Covered(s))
  {
    assert HoldsConsumer(Waker(s)) && !WillWake(Waker(s));
    if Waker(s).Releasing? {
      assert WorkerInv(s, Waker(s).index);
      assert WillLook(s.workers[Waker(s).index]);
    }
  }

  lemma WorkerKeepsSafe(s: State, w: nat, move: WorkerStep, x: TaskId)
    requires Inv(s) && Enabled(s, OfWorker(w, move)) && Safe(s, x)
    ensures Safe(Apply(s, OfWorker(w, move)), x)
  {
    var t := Apply(s, OfWorker(w, move));
    assert t.calls == s.calls && t.consumer == s.consumer;
    if x in t.global && Covered(s) {
      WorkerLeavesCovered(s, w, move);
    }
  }

  /** A call never uncovers anything. */
  lemma CallLeavesCovered(s: State, c: nat, action: CallStep)
    requires Enabled(s, OfCall(c, action)) && Covered(s)
    ensures Covered(Apply(s, OfCall(c, action)))
  {
    var t := Apply(s, OfCall(c, action));
    if v :| 0 <= v < |s.workers| && WillLook(s.workers[v]) {
      assert WillLook(t.workers[v]);
    } else {
      var v :| 0 <= v < |s.workers| && AtDriver(s.workers[v]);
      assert AtDriver(t.workers[v]);
    }
  }

  /** A wake still to come either stays to come or covers what is queued. */
  lemma WakeComes(s: State, c: nat, action: CallStep, x: TaskId)
    requires Inv(s) && Enabled(s, OfCall(c, action)) && WakeToCome(s)
    ensures var t := Apply(s, OfCall(c, action)); WakeToCome(t) || (x in t.global ==> Covered(t))
  {
    var t := Apply(s, OfCall(c, action));
    CallKeepsCover(s, c, action);
    var d :| 0 <= d < |s.calls| && WillWake(s.calls[d]);
    if d != c || WillWake(t.calls[c]) {
      assert WillWake(t.calls[d]);
    } else if x in t.global {
      assert x in t.announced;
    }
  }

  lemma CallKeepsSafe(s: State, c: nat, action: CallStep, x: TaskId)
    requires Inv(s) && Enabled(s, OfCall(c, action)) && Safe(s, x) && NobodyInserts(s, x) && action != Call(x)
    ensures var t := Apply(s, OfCall(c, action)); Safe(t, x) && NobodyInserts(t, x)
  {
    var t := Apply(s, OfCall(c, action));
    if Covered(s) {
      CallLeavesCovered(s, c, action);
    } else if WakeToCome(s) {
      WakeComes(s, c, action, x);
    } else if s.consumer.None? && SomeTries(s) {
      var d :| 0 <= d < |s.calls| && s.calls[d].TryingLock?;
      if action.TryLock? {
        assert WillWake(t.calls[c]);
      } else {
        assert t.calls[d].TryingLock? && t.consumer.None?;
      }
    }
  }

  lemma {:induction false} SafeForEver(s: State, steps: seq<Step>, x: TaskId)
    requires Inv(s) && IsRun(s, steps) && AllSteps(steps, NoCallFor(x)) && Safe(s, x) && NobodyInserts(s, x)
    ensures Inv(After(s, steps)) && Safe(After(s, steps), x) && NobodyInserts(After(s, steps), x)
  {
    if steps != [] {
      SafeForEver(s, Init(steps), x);
      var t := After(s, Init(steps));
      assert NoCallFor(x)(Last(steps));
      StepKeepsInv(t, Last(steps));
      KeepsSafe(t, Last(steps), x);
    }
  }

  lemma KeepsSafe(s: State, step: Step, x: TaskId)
    requires Inv(s) && Enabled(s, step) && NoCallFor(x)(step) && Safe(s, x) && NobodyInserts(s, x)
    ensures Safe(Apply(s, step), x) && NobodyInserts(Apply(s, step), x)
  {
    match step
    case OfWorker(w, move) => WorkerKeepsSafe(s, w, move, x);
    case OfCall(c, action) => CallKeepsSafe(s, c, action, x);
  }

  // ---------------------------------------------------------------------------
  // A task about to be inserted again can always be stranded
  // ---------------------------------------------------------------------------

  function PopRank(pc: SQ.PopPc): nat {
    match pc
    case Resting => 7
    case SkippedStub => 6
    case CheckHead => 5
    case StubClear => 4
    case StubSwap => 3
    case StubLink(_) => 2
    case Reload => 1
  }

  /** How far the lock holder is from its unlock, a worker it waits for included. */
  function HolderRank(s: State): nat
    requires Shaped(s)
  {
    match Waker(s)
    case Popping => 20 + PopRank(s.queue.consumer)
    case Got(i) => 10 + if i < |s.workers| then Rank(s, i) else 0
    case AtParker(_) => 5
    case Notifying(_) => 4
    case Releasing(_) => 3
    case WakingDriver => 3
    case _ => 0
  }

  /** The lock holder's next step, or that of the worker whose parker it waits for. */
  function HolderNext(s: State): Step
    requires Shaped(s) && s.consumer.Some?
  {
    var c := s.consumer.value;
    match Waker(s)
    case Popping => OfCall(c, Pop)
    case Got(i) =>
      if i < |s.workers| && !s.parkerGuard[i].Free? then OfWorker(i, NextMove(s.workers[i]))
      else OfCall(c, LockWorker)
    case AtParker(_) => OfCall(c, Inspect)
    case Notifying(_) => OfCall(c, Notify)
    case Releasing(_) => OfCall(c, ReleaseWorker)
    case WakingDriver => OfCall(c, WakeDriver)
    case _ => OfCall(c, Unlock)
  }

  /** `s'` is `s` after a step of the holder `c` that brings it closer to its unlock. */
  predicate Nearer(s: State, s': State, c: nat) {
    && Shaped(s) && Shaped(s') && s'.consumer == s.consumer && c < |s.calls| == |s'.calls|
    && s'.calls == s.calls[c := s'.calls[c]] && HolderRank(s') < HolderRank(s)
  }

  lemma PopComesNearer(s: State)
    requires Inv(s) && s.consumer.Some? && Waker(s).Popping?
    ensures Enabled(s, HolderNext(s)) && Nearer(s, Apply(s, HolderNext(s)), s.consumer.value)
  {
    SQ.StepContract(s.queue, SQ.PopStep);
    PopAdvances(s.queue);
  }

  /** A step of `pop` that does not return yet gets further down its body. */
  lemma PopAdvances(q: SQ.State)
    requires SQ.WellFormed(q)
    ensures SQ.Emits(q, SQ.PopStep).Popped? || SQ.Emits(q, SQ.PopStep).Silent?
    ensures SQ.Emits(q, SQ.PopStep).Silent? ==> PopRank(SQ.Apply(q, SQ.PopStep).consumer) < PopRank(q.consumer)
  {
  }

  lemma AwaitedWorkerMoves(s: State)
    requires Inv(s) && s.consumer.Some? && Waker(s).Got? && !s.parkerGuard[Waker(s).index].Free?
    ensures Enabled(s, HolderNext(s)) && Nearer(s, Apply(s, HolderNext(s)), s.consumer.value)
  {
    var i := Waker(s).index;
    assert WorkerInv(s, i);
    if s.workers[i].Registering? {
      RegisterMove(s, i);
    }
  }

  lemma HolderComesNearer(s: State)
    requires Inv(s) && s.consumer.Some? && !Waker(s).Unlocking?
    ensures Enabled(s, HolderNext(s)) && Nearer(s, Apply(s, HolderNext(s)), s.consumer.value)
  {
    var c := s.consumer.value;
    assert HoldsConsumer(s.calls[c]);
    if Waker(s).Popping? {
      PopComesNearer(s);
    } else if Waker(s).Got? && !s.parkerGuard[Waker(s).index].Free? {
      AwaitedWorkerMoves(s);
    } else {
      NotifyReachesSleeper(s, c);
    }
  }

  /** Call `d` is about to insert `x` and has not moved since `s0`. */
  ghost predicate Coming(s0: State, s: State, d: nat, x: TaskId) {
    && Leads(s0, s, NoCallFor(x)) && Inv(s) && s.consumer.Some?
    && d < |s.calls| && s.calls[d] == Inserting(x)
  }

  lemma HolderToUnlock(s0: State, s: State, d: nat, x: TaskId) returns (t: State)
    requires Coming(s0, s, d, x)
    ensures Coming(s0, t, d, x) && Waker(t).Unlocking?
    decreases HolderRank(s)
  {
    if Waker(s).Unlocking? {
      t := s;
    } else {
      HolderComesNearer(s);
      StepKeepsInv(s, HolderNext(s));
      LeadsFurther(s0, s, HolderNext(s), NoCallFor(x));
      t := HolderToUnlock(s0, Apply(s, HolderNext(s)), d, x);
    }
  }

  // The workers, meanwhile, can use up what covers the queue.

  function Busy(pc: WorkerPc): nat {
    match pc
    case Driving => 1
    case FoundNothing => 2
    case Top => 3
    case Running => 4
    case Driven => 4
    case Notified => 4
    case _ => 0
  }

  function Length(queue: seq<TaskId>): nat { |queue| }

  function Load(s: State): nat {
    Sum(s.workers, Busy) + 3 * (Sum(s.locals, Length) + |s.global|) + 8 * B(s.latched)
  }

  /** What a covering worker does next: own tasks first, then the global queue; tasks schedule nothing. */
  function Onward(s: State, w: nat): WorkerStep
    requires Shaped(s) && w < |s.workers|
  {
    match s.workers[w]
    case Top => if s.locals[w] != [] then TakeLocal else LookGlobal
    case Running => FinishRun
    case Driven => DropDriver
    case Notified => WakeUp
    case FoundNothing => TryDriver
    case _ => PollReturns(true)
  }

  /** Worker `w` will look, or is the one that a latched wake of the driver will make look. */
  predicate Covers(s: State, w: nat) {
    && w < |s.workers|
    && (WillLook(s.workers[w])
        || (s.latched && AtDriver(s.workers[w]) && (s.driver.None? || s.driver == Some(w))))
  }

  lemma SomeoneCovers(s: State) returns (w: nat)
    requires LockInv(s) && Covered(s)
    ensures Covers(s, w)
  {
    if v :| 0 <= v < |s.workers| && WillLook(s.workers[v]) {
      w := v;
    } else {
      w :| 0 <= w < |s.workers| && AtDriver(s.workers[w]);
      if s.driver.Some? {
        w := s.driver.value;
      }
    }
  }

  lemma OnwardLightens(s: State, w: nat)
    requires Shaped(s) && Covers(s, w) && WorkerEnabled(s, w, Onward(s, w))
    ensures Load(Apply(s, OfWorker(w, Onward(s, w)))) < Load(s)
  {
    var t := Apply(s, OfWorker(w, Onward(s, w)));
    assert t.workers == s.workers[w := t.workers[w]] && t.locals == s.locals[w := t.locals[w]];
    SumUpdate(s.workers, Busy, w, t.workers[w]);
    SumUpdate(s.locals, Length, w, t.locals[w]);
  }

  lemma OnwardEnabled(s: State, w: nat)
    requires Inv(s) && Covers(s, w) && (s.workers[w].Notified? ==> Waker(s) != Releasing(w))
    ensures Enabled(s, OfWorker(w, Onward(s, w)))
  {
    assert WorkerInv(s, w);
  }

  lemma UseUpCover(s0: State, s: State, d: nat, x: TaskId) returns (t: State)
    requires Coming(s0, s, d, x) && Waker(s).Unlocking?
    ensures Coming(s0, t, d, x) && TooLate(t)
    decreases Load(s)
  {
    if !Covered(s) {
      t := s;
    } else {
      var w := SomeoneCovers(s);
      var m := UseUpStep(s0, s, w, d, x);
      t := UseUpCover(s0, m, d, x);
    }
  }

  lemma UseUpStep(s0: State, s: State, w: nat, d: nat, x: TaskId) returns (t: State)
    requires Coming(s0, s, d, x) && Waker(s).Unlocking? && Covers(s, w)
    ensures Coming(s0, t, d, x) && Waker(t).Unlocking? && Load(t) < Load(s)
  {
    var step := OfWorker(w, Onward(s, w));
    OnwardEnabled(s, w);
    OnwardLightens(s, w);
    StepKeepsInv(s, step);
    LeadsFurther(s0, s, step, NoCallFor(x));
    t := Apply(s, step);
    assert t.calls == s.calls && t.consumer == s.consumer;
  }

  lemma InsertTooLate(s0: State, s: State, d: nat, x: TaskId) returns (t: State)
    requires Coming(s0, s, d, x) && TooLate(s)
    ensures Losing(s0, t, x)
  {
    var step := OfCall(d, Insert);
    assert s.consumer != Some(d);
    t := Apply(s, step);
    StepKeepsInv(s, step);
    LeadsFurther(s0, s, step, NoCallFor(x));
    SameCover(s, t);
  }

  /** While one call tries the lock and another is about to insert `x`, the race can be set up. */
  lemma ComingCanStrand(s: State, c: nat, d: nat, x: TaskId) returns (t: State)
    requires Inv(s) && c < |s.calls| && s.calls[c].TryingLock? && d < |s.calls| && s.calls[d] == Inserting(x)
    ensures Leads(s, t, NoCallFor(x)) && Stranded(t) && x in t.global
  {
    LeadsNowhere(s, NoCallFor(x));
    var m := s;
    if s.consumer.None? {
      StepKeepsInv(s, OfCall(c, TryLock));
      LeadsFurther(s, s, OfCall(c, TryLock), NoCallFor(x));
      m := Apply(s, OfCall(c, TryLock));
    }
    m := HolderToUnlock(s, m, d, x);
    m := UseUpCover(s, m, d, x);
    m := InsertTooLate(s, m, d, x);
    t := TooLateStrands(s, m, x);
  }

  /**
   The exact condition. A call has inserted `x` and is about to try the parked-worker lock. Some
   continuation in which nobody calls for `x` anew strands it if and only if another call for `x`
   has yet to insert it, or `x` is still queued, the lock's holder has nothing left to do but
   unlock, and nothing covers the queue.
   */
  lemma StrandsIffTooLate(n: nat, calls: nat, s: State, c: nat, x: TaskId)
    requires n > 0 && Reachable(n, calls, s) && c < |s.calls| && s.calls[c] == TryingLock(x)
    ensures (exists t :: Leads(s, t, NoCallFor(x)) && Stranded(t) && x in t.global)
       <==> !NobodyInserts(s, x) || (x in s.global && Waker(s).Unlocking? && !Covered(s))
  {
    ReachableInv(n, calls, s);
    if !NobodyInserts(s, x) {
      var d :| 0 <= d < |s.calls| && s.calls[d] == Inserting(x);
      var t := ComingCanStrand(s, c, d, x);
    } else if x in s.global && TooLate(s) {
      LeadsNowhere(s, NoCallFor(x));
      var t := TooLateStrands(s, s, x);
    } else {
      assert Safe(s, x) by {
        if s.consumer.Some? && !WakeToCome(s) {
          HolderIsDone(s);
        }
      }
      NeverStranded(s, x);
    }
  }

  lemma NeverStranded(s: State, x: TaskId)
    requires Inv(s) && Safe(s, x) && NobodyInserts(s, x)
    ensures forall t :: Leads(s, t, NoCallFor(x)) && x in t.global ==> !Stranded(t)
  {
    forall t | Leads(s, t, NoCallFor(x)) && x in t.global ensures !Stranded(t) {
      var steps :| IsRun(s, steps) && AllSteps(steps, NoCallFor(x)) && After(s, steps) == t;
      SafeForEver(s, steps, x);
      if Stranded(t) {
        StrandedIsUncovered(t);
      }
    }
  }

  // ---------------------------------------------------------------------------
  // Cover is worth something: the covering worker gets to look
  // ---------------------------------------------------------------------------

  /** The most steps worker `w` and the holder of its parker need until `w` looks. */
  function Distance(s: State, w: nat): nat
    requires Shaped(s) && w < |s.workers|
  {
    var own := 2 * |s.locals[w]|;
    match s.workers[w]
    case Top => own + 1
    case Running => own + 2
    case Driven => own + 2
    case Notified => own + 2 + B(!s.parkerGuard[w].Free?)
    case Driving => own + 3
    case FoundNothing => own + 4
    case _ => 0
  }

  /** Own moves of `w` that schedule nothing, and the release of a parker. */
  function TakesPart(w: nat): Step -> bool {
    (step: Step) =>
      if step.OfWorker? then step.w == w && !step.move.ScheduleLocal? && step.move != PollReturns(false)
      else step.action.ReleaseWorker?
  }

  function Approach(s: State, w: nat): Step
    requires Shaped(s) && w < |s.workers|
  {
    if s.workers[w].Notified? && !s.parkerGuard[w].Free? && s.consumer.Some? then
      OfCall(s.consumer.value, ReleaseWorker)
    else OfWorker(w, Onward(s, w))
  }

  predicate AboutToLook(s: State, w: nat)
    requires Shaped(s) && w < |s.workers|
  {
    s.workers[w].Top? && s.locals[w] == []
  }

  lemma ApproachMoves(s: State, w: nat)
    requires Inv(s) && Covers(s, w) && !AboutToLook(s, w)
    ensures Enabled(s, Approach(s, w)) && TakesPart(w)(Approach(s, w))
    ensures var t := Apply(s, Approach(s, w));
            Shaped(t) && Covers(t, w) && Distance(t, w) < Distance(s, w) && t.global == s.global
  {
    assert WorkerInv(s, w);
    if s.workers[w].Notified? && !s.parkerGuard[w].Free? {
      assert Waker(s) == Releasing(w);
    } else {
      OnwardEnabled(s, w);
    }
  }

  lemma ApproachFrom(s: State, done: seq<Step>, w: nat) returns (steps: seq<Step>)
    requires IsRun(s, done) && AllSteps(done, TakesPart(w)) && Inv(After(s, done)) && Covers(After(s, done), w)
    ensures IsRun(s, steps) && AllSteps(steps, TakesPart(w)) && Inv(After(s, steps)) && Covers(After(s, steps), w)
    ensures AboutToLook(After(s, steps), w) && After(s, steps).global == After(s, done).global
    ensures |steps| < |done| + Distance(After(s, done), w)
    decreases Distance(After(s, done), w)
  {
    var t := After(s, done);
    if AboutToLook(t, w) {
      steps := done;
    } else {
      var step := Approach(t, w);
      ApproachMoves(t, w);
      StepKeepsInv(t, step);
      assert Init(done + [step]) == done && Last(done + [step]) == step;
      steps := ApproachFrom(s, done + [step], w);
    }
  }

  /**
   From every reachable covered state some worker, moving alone but for the release of its parker,
   takes the front of the global queue within `Distance` steps. It enters the driver's poll only
   where a wake is latched that makes the poll return.
   */
  lemma CoverGetsLook(n: nat, calls: nat, s: State) returns (w: nat, steps: seq<Step>)
    requires n > 0 && Reachable(n, calls, s) && Covered(s)
    ensures Shaped(s) && Covers(s, w)
    ensures IsRun(s, steps) && AllSteps(steps, TakesPart(w)) && 0 < |steps| <= Distance(s, w)
    ensures Last(steps) == OfWorker(w, LookGlobal)
    ensures After(s, steps).global == s.global[Min(EX.GRAB, |s.global|)..]
  {
    ReachableInv(n, calls, s);
    w := SomeoneCovers(s);
    var before := ApproachFrom(s, [], w);
    steps := before + [OfWorker(w, LookGlobal)];
    LookNow(s, before, w);
  }

  lemma LookNow(s: State, before: seq<Step>, w: nat)
    requires IsRun(s, before) && Shaped(After(s, before)) && w < |After(s, before).workers|
    requires AboutToLook(After(s, before), w)
    ensures var steps, global := before + [OfWorker(w, LookGlobal)], After(s, before).global;
            IsRun(s, steps) && After(s, steps).global == global[Min(EX.GRAB, |global|)..]
  {
    var step := OfWorker(w, LookGlobal);
    assert Init(before + [step]) == before && Last(before + [step]) == step;
    assert After(s, before + [step]) == ApplyLookGlobal(After(s, before), w);
  }

  // ---------------------------------------------------------------------------
  // Looking back from a stranded state
  // ---------------------------------------------------------------------------

  ghost predicate Inserted(s: State, x: TaskId) {
    exists c :: 0 <= c < |s.calls| && s.calls[c] == TryingLock(x)
  }

  /** Queued, and neither its own call nor anybody's wake will do anything about it. */
  ghost predicate Abandoned(s: State, x: TaskId) {
    x in s.global && !Covered(s) && !WakeToCome(s) && !Inserted(s, x)
  }

  /** Step `k` of the run is a call for `x` that loses the lock when it is too late. */
  ghost predicate LostAt(n: nat, calls: nat, steps: seq<Step>, k: nat, x: TaskId) {
    && k < |steps| && IsRun(New(n, calls), steps[..k]) && steps[k].OfCall? && steps[k].action.TryLock?
    && var s := After(New(n, calls), steps[..k]);
       steps[k].c < |s.calls| && s.calls[steps[k].c] == TryingLock(x) && x in s.global && TooLate(s)
  }

  lemma AbandonedByWorker(s: State, w: nat, move: WorkerStep, x: TaskId)
    requires Inv(s) && Enabled(s, OfWorker(w, move)) && Abandoned(Apply(s, OfWorker(w, move)), x)
    ensures Abandoned(s, x)
  {
    var t := Apply(s, OfWorker(w, move));
    assert t.calls == s.calls && x in s.global;
    if Covered(s) {
      WorkerLeavesCovered(s, w, move);
    }
  }

  lemma StaysInserted(s: State, c: nat, action: CallStep, x: TaskId)
    requires Enabled(s, OfCall(c, action)) && s.calls[c] != TryingLock(x) && Inserted(s, x)
    ensures Inserted(Apply(s, OfCall(c, action)), x)
  {
    var d :| 0 <= d < |s.calls| && s.calls[d] == TryingLock(x);
    assert Apply(s, OfCall(c, action)).calls[d] == TryingLock(x);
  }

  lemma QueuedByItsCall(s: State, c: nat, action: CallStep, x: TaskId)
    requires Enabled(s, OfCall(c, action)) && x !in s.global && x in Apply(s, OfCall(c, action)).global
    ensures Inserted(Apply(s, OfCall(c, action)), x)
  {
    assert Apply(s, OfCall(c, action)).calls[c] == TryingLock(x);
  }

  lemma AbandonedByCall(s: State, c: nat, action: CallStep, x: TaskId)
    requires Inv(s) && Enabled(s, OfCall(c, action)) && Abandoned(Apply(s, OfCall(c, action)), x)
    ensures Abandoned(s, x) || (action.TryLock? && s.calls[c] == TryingLock(x) && x in s.global && TooLate(s))
  {
    var t := Apply(s, OfCall(c, action));
    if x !in s.global {
      QueuedByItsCall(s, c, action, x);
    }
    if Covered(s) {
      CallLeavesCovered(s, c, action);
    }
    if WakeToCome(s) {
      WakeComes(s, c, action, x);
    }
    if s.calls[c] == TryingLock(x) {
      assert !WillWake(t.calls[c]);
      HolderIsDone(s);
    } else if Inserted(s, x) {
      StaysInserted(s, c, action, x);
    }
  }

  lemma {:induction false} AbandonedHasCause(n: nat, calls: nat, steps: seq<Step>, x: TaskId) returns (k: nat)
    requires n > 0 && IsRun(New(n, calls), steps) && Abandoned(After(New(n, calls), steps), x)
    ensures LostAt(n, calls, steps, k, x)
  {
    assert steps != [];
    var s := After(New(n, calls), Init(steps));
    RunInv(n, calls, Init(steps));
    if Abandoned(s, x) {
      k := AbandonedHasCause(n, calls, Init(steps), x);
      assert steps[..k] == Init(steps)[..k] && steps[k] == Init(steps)[k];
    } else {
      k := |steps| - 1;
      assert steps[..k] == Init(steps) && steps[k] == Last(steps);
      match Last(steps)
      case OfWorker(w, move) => AbandonedByWorker(s, w, move, x);
      case OfCall(c, action) => AbandonedByCall(s, c, action, x);
    }
  }

  /**
   In every run that ends stranded, each task still queued came from a call that met the condition
   of `StrandsIffTooLate` when it lost the lock.
   */
  lemma StrandedHasCause(n: nat, calls: nat, steps: seq<Step>, x: TaskId) returns (k: nat)
    requires n > 0 && IsRun(New(n, calls), steps)
    requires var s := After(New(n, calls), steps); Stranded(s) && x in s.global
    ensures LostAt(n, calls, steps, k, x)
  {
    StrandedIsUncovered(After(New(n, calls), steps));
    k := AbandonedHasCause(n, calls, steps, x);
  }

  // ---------------------------------------------------------------------------
  // A run that gets there
  // ---------------------------------------------------------------------------

  lemma Extend(n: nat, calls: nat, s: State, step: Step)
    requires Reachable(n, calls, s) && Enabled(s, step)
    ensures Reachable(n, calls, Apply(s, step))
  {
    var steps :| IsRun(New(n, calls), steps) && s == After(New(n, calls), steps);
    assert Init(steps + [step]) == steps && Last(steps + [step]) == step;
    assert After(New(n, calls), steps + [step]) == Apply(s, step);
  }

  /** One worker, two call sites, an untouched slot queue: the states of the stranding run. */
  function Scene(w: WorkerPc, latched: bool, global: seq<TaskId>, announced: set<TaskId>,
                 calls: seq<CallPc>, locked: bool): State
  {
    New(1, 2).(workers := [w], driver := if w.Driving? || w.Driven? then Some(0) else None,
               latched := latched, global := global, announced := announced, calls := calls,
               consumer := if locked then Some(0) else None)
  }

  /** Holds of whatever a step leads to, if it holds before. */
  ghost predicate Closed(P: State -> bool) {
    forall s, step :: P(s) && Enabled(s, step) ==> P(Apply(s, step))
  }

  /** The worker finds nothing and polls the driver. */
  lemma WorkerStarts(P: State -> bool)
    requires Closed(P) && P(Scene(Top, false, [], {}, [Absent, Absent], false))
    ensures P(Scene(Driving, false, [], {}, [Absent, Absent], false))
  {
    var s0 := Scene(Top, false, [], {}, [Absent, Absent], false);
    var s1 := Scene(FoundNothing, false, [], {}, [Absent, Absent], false);
    var s2 := Scene(Driving, false, [], {}, [Absent, Absent], false);
    assert P(Apply(s0, OfWorker(0, LookGlobal)));
    assert Apply(s0, OfWorker(0, LookGlobal)) == s1;
    assert P(Apply(s1, OfWorker(0, TryDriver)));
    assert Apply(s1, OfWorker(0, TryDriver)) == s2;
  }

  /** Call 0 queues task 7 and wins the lock. */
  lemma WinnerLocks(P: State -> bool)
    requires Closed(P) && P(Scene(Driving, false, [], {}, [Absent, Absent], false))
    ensures P(Scene(Driving, false, [7], {}, [Popping, Absent], true))
  {
    var s0 := Scene(Driving, false, [], {}, [Absent, Absent], false);
    var s1 := Scene(Driving, false, [], {}, [Inserting(7), Absent], false);
    var s2 := Scene(Driving, false, [7], {}, [TryingLock(7), Absent], false);
    var s3 := Scene(Driving, false, [7], {}, [Popping, Absent], true);
    assert P(Apply(s0, OfCall(0, Call(7))));
    assert Apply(s0, OfCall(0, Call(7))) == s1;
    assert P(Apply(s1, OfCall(0, Insert)));
    assert Apply(s1, OfCall(0, Insert)) == s2;
    assert P(Apply(s2, OfCall(0, TryLock)));
    assert Apply(s2, OfCall(0, TryLock)) == s3;
  }

  /** It wakes the polling worker and keeps the lock. */
  lemma WinnerWakes(P: State -> bool)
    requires Closed(P) && P(Scene(Driving, false, [7], {}, [Popping, Absent], true))
    ensures P(Scene(Driving, true, [7], {7}, [Unlocking, Absent], true))
  {
    var s0 := Scene(Driving, false, [7], {}, [Popping, Absent], true);
    var s1 := Scene(Driving, false, [7], {}, [WakingDriver, Absent], true);
    var s2 := Scene(Driving, true, [7], {7}, [Unlocking, Absent], true);
    assert P(Apply(s0, OfCall(0, Pop)));
    assert Apply(s0, OfCall(0, Pop)) == s1;
    assert P(Apply(s1, OfCall(0, WakeDriver)));
    assert Apply(s1, OfCall(0, WakeDriver)) == s2;
  }

  /** The worker leaves the driver. */
  lemma WorkerAnswers(P: State -> bool)
    requires Closed(P) && P(Scene(Driving, true, [7], {7}, [Unlocking, Absent], true))
    ensures P(Scene(Top, false, [7], {7}, [Unlocking, Absent], true))
  {
    var s0 := Scene(Driving, true, [7], {7}, [Unlocking, Absent], true);
    var s1 := Scene(Driven, false, [7], {7}, [Unlocking, Absent], true);
    var s2 := Scene(Top, false, [7], {7}, [Unlocking, Absent], true);
    assert P(Apply(s0, OfWorker(0, PollReturns(true))));
    assert Apply(s0, OfWorker(0, PollReturns(true))) == s1;
    assert P(Apply(s1, OfWorker(0, DropDriver)));
    assert Apply(s1, OfWorker(0, DropDriver)) == s2;
  }

  /** It runs task 7 and finds both queues empty again. */
  lemma WorkerComesBack(P: State -> bool)
    requires Closed(P) && P(Scene(Top, false, [7], {7}, [Unlocking, Absent], true))
    ensures P(Scene(FoundNothing, false, [], {}, [Unlocking, Absent], true))
  {
    var s0 := Scene(Top, false, [7], {7}, [Unlocking, Absent], true);
    var s1 := Scene(Running, false, [], {}, [Unlocking, Absent], true);
    var s2 := Scene(Top, false, [], {}, [Unlocking, Absent], true);
    var s3 := Scene(FoundNothing, false, [], {}, [Unlocking, Absent], true);
    assert s0.global[..1] == [7] && s0.global[1..] == [] && s0.locals[0] + s0.global[..1] == [7];
    assert s1.locals == s0.locals[0 := []];
    assert P(Apply(s0, OfWorker(0, LookGlobal)));
    assert Apply(s0, OfWorker(0, LookGlobal)) == s1;
    assert P(Apply(s1, OfWorker(0, FinishRun)));
    assert Apply(s1, OfWorker(0, FinishRun)) == s2;
    assert P(Apply(s2, OfWorker(0, LookGlobal)));
    assert Apply(s2, OfWorker(0, LookGlobal)) == s3;
  }

  /** Call 1 queues task 8 and loses the lock. */
  lemma LoserQueues(P: State -> bool)
    requires Closed(P) && P(Scene(FoundNothing, false, [], {}, [Unlocking, Absent], true))
    ensures P(Scene(FoundNothing, false, [8], {}, [Unlocking, Absent], true))
  {
    var s0 := Scene(FoundNothing, false, [], {}, [Unlocking, Absent], true);
    var s1 := Scene(FoundNothing, false, [], {}, [Unlocking, Inserting(8)], true);
    var s2 := Scene(FoundNothing, false, [8], {}, [Unlocking, TryingLock(8)], true);
    var s3 := Scene(FoundNothing, false, [8], {}, [Unlocking, Absent], true);
    assert P(Apply(s0, OfCall(1, Call(8))));
    assert Apply(s0, OfCall(1, Call(8))) == s1;
    assert P(Apply(s1, OfCall(1, Insert)));
    assert Apply(s1, OfCall(1, Insert)) == s2;
    assert P(Apply(s2, OfCall(1, TryLock)));
    assert Apply(s2, OfCall(1, TryLock)) == s3;
  }

  /** The worker goes to sleep in the driver and the winner drops the lock. */
  lemma WorkerSleeps(P: State -> bool)
    requires Closed(P) && P(Scene(FoundNothing, false, [8], {}, [Unlocking, Absent], true))
    ensures P(Scene(Driving, false, [8], {}, [Absent, Absent], false))
  {
    var s0 := Scene(FoundNothing, false, [8], {}, [Unlocking, Absent], true);
    var s1 := Scene(Driving, false, [8], {}, [Unlocking, Absent], true);
    var s2 := Scene(Driving, false, [8], {}, [Absent, Absent], false);
    assert P(Apply(s0, OfWorker(0, TryDriver)));
    assert Apply(s0, OfWorker(0, TryDriver)) == s1;
    assert P(Apply(s1, OfCall(0, Unlock)));
    assert Apply(s1, OfCall(0, Unlock)) == s2;
  }

  lemma StrandingRun(P: State -> bool)
    requires Closed(P) && P(Scene(Top, false, [], {}, [Absent, Absent], false))
    ensures P(Scene(Driving, false, [8], {}, [Absent, Absent], false))
  {
    WorkerStarts(P);
    WinnerLocks(P);
    WinnerWakes(P);
    WorkerAnswers(P);
    WorkerComesBack(P);
    LoserQueues(P);
    WorkerSleeps(P);
  }

  /**
   A call that loses the race for the parked-worker lock wakes nobody, although the winner may
   be done waking: a run of seventeen steps queues task 8 and leaves the only worker asleep.
   */
  lemma LosingTheLockCanStrand()
    ensures exists s :: Reachable(1, 2, s) && Stranded(s) && s.global == [8]
  {
    var P := (s: State) => Reachable(1, 2, s);
    assert Closed(P) by {
      forall s, step | P(s) && Enabled(s, step) ensures P(Apply(s, step)) {
        Extend(1, 2, s, step);
      }
    }
    var s := Scene(Driving, false, [8], {}, [Absent, Absent], false);
    assert P(s) by {
      FreshReachable();
      StrandingRun(P);
    }
    assert Stranded(s);
  }

  lemma FreshReachable()
    ensures Reachable(1, 2, Scene(Top, false, [], {}, [Absent, Absent], false))
  {
    assert IsRun(New(1, 2), []) && After(New(1, 2), []) == New(1, 2);
    assert New(1, 2) == Scene(Top, false, [], {}, [Absent, Absent], false);
  }
}
