/**
 Whether and when `wake` of `src/io/mod.rs` returns while other threads poll, register and clear:
 the protocol of `IoWaiters` from the driver's point of view.
 */
module WakeProgress {
  import opened Basics
  import opened Sequences
  import opened ReadyFlags
  import opened IoWaiters

  // ---------------------------------------------------------------------------
  // Runs on one event
  // ---------------------------------------------------------------------------

  /** Any step but the driver taking up its next event. */
  predicate SameEvent(step: Step) {
    !(step.OfDriver? && step.act.TakeEvent?)
  }

  predicate OnSameEvent(steps: seq<Step>) {
    forall i :: 0 <= i < |steps| ==> SameEvent(steps[i])
  }

  ghost predicate Leads(s: State, t: State) {
    exists steps :: IsRun(s, steps) && OnSameEvent(steps) && After(s, steps) == t
  }

  lemma LeadsNowhere(s: State)
    ensures Leads(s, s)
  {
    assert IsRun(s, []) && OnSameEvent([]) && After(s, []) == s;
  }

  lemma LeadsFurther(s: State, t: State, step: Step)
    requires Leads(s, t) && Enabled(t, step) && SameEvent(step)
    ensures Leads(s, Apply(t, step))
  {
    var steps :| IsRun(s, steps) && OnSameEvent(steps) && After(s, steps) == t;
    assert Init(steps + [step]) == steps && Last(steps + [step]) == step;
    assert OnSameEvent(steps + [step]) && After(s, steps + [step]) == Apply(t, step);
  }

  // ---------------------------------------------------------------------------
  // When there is no way back
  // ---------------------------------------------------------------------------

  /** The driver polls, or has seen the list empty. */
  predicate Ending(pc: DriverPc) {
    pc.Polling? || (pc.WakeFlushing? && pc.last)
  }

  /** The event gives future `k` what it waits for. */
  predicate Met(s: State, k: nat)
    requires !s.driver.Polling? && k < |s.interests|
  {
    Meets(s.driver.event, Wants(s, k))
  }

  predicate AllListedMet(s: State)
    requires Shaped(s) && !s.driver.Polling?
  {
    forall k :: k in s.list ==> Met(s, k)
  }

  /** It holds the lock and nothing can keep it from pushing its node. */
  predicate BoundToPush(s: State, k: nat)
    requires Shaped(s) && k < |s.futures|
  {
    s.guard == ByFuture(k) && (s.futures[k].InitPushing? || (s.futures[k].InitChecking? && !SeesWanted(s, k)))
  }

  /** A waiter the event does not satisfy is listed or about to be. */
  predicate Doomed(s: State)
    requires Shaped(s)
  {
    && !Ending(s.driver)
    && (!AllListedMet(s) || exists k :: 0 <= k < |s.futures| && BoundToPush(s, k) && !Met(s, k))
  }

  lemma UnmetListedStays(s: State, step: Step, k: nat)
    requires Inv(s) && Enabled(s, step) && SameEvent(step) && !Ending(s.driver) && k in s.list && !Met(s, k)
    ensures var t := Apply(s, step); Shaped(t) && !Ending(t.driver) && k in t.list && !Met(t, k)
  {
    StepKeepsInv(s, step);
    if step.OfDriver? && step.act.Scan? && |s.batch| < BATCH {
      assert s.list[0] != k ==> k in s.list[1..];
    }
  }

  lemma UnmetPusherStays(s: State, step: Step, k: nat)
    requires Inv(s) && Enabled(s, step) && SameEvent(step) && !Ending(s.driver)
    requires k < |s.futures| && BoundToPush(s, k) && !Met(s, k)
    ensures var t := Apply(s, step);
            && Shaped(t) && !Ending(t.driver) && |t.futures| == |s.futures| && !Met(t, k)
            && (BoundToPush(t, k) || k in t.list)
  {
    StepKeepsInv(s, step);
    if step.OfFuture? {
      assert FutureInv(s, step.k, s.futures[step.k]);
    }
  }

  lemma DoomedStep(s: State, step: Step)
    requires Inv(s) && Enabled(s, step) && SameEvent(step) && Doomed(s)
    ensures Inv(Apply(s, step)) && Doomed(Apply(s, step))
  {
    StepKeepsInv(s, step);
    if k :| k in s.list && !Met(s, k) {
      UnmetListedStays(s, step, k);
    } else {
      var k :| 0 <= k < |s.futures| && BoundToPush(s, k) && !Met(s, k);
      UnmetPusherStays(s, step, k);
    }
  }

  lemma {:induction false} DoomedForEver(s: State, steps: seq<Step>)
    requires Inv(s) && Doomed(s) && IsRun(s, steps) && OnSameEvent(steps)
    ensures Inv(After(s, steps)) && Doomed(After(s, steps))
  {
    if steps != [] {
      DoomedForEver(s, Init(steps));
      DoomedStep(After(s, Init(steps)), Last(steps));
    }
  }

  // ---------------------------------------------------------------------------
  // Otherwise the driver and the holder of the lock can bring it back
  // ---------------------------------------------------------------------------

  function MayPush(pc: FuturePc): nat {
    B(pc.Fresh? || pc.InitLocking? || pc.InitChecking? || pc.InitPushing?)
  }

  function Phase(pc: DriverPc): nat {
    match pc
    case Polling => 0
    case Setting(_) => 10
    case WakeLocking(_) => 9
    case WakeReader(_) => 8
    case WakeWriter(_) => 5
    case WakeScanning(_) => 2
    case WakeFlushing(_, last) => if last then 1 else 4
    case WakeRelocking(_) => 3
  }

  /** The driver's steps to come: every listed node, and every node that may yet be pushed, costs three. */
  function Work(s: State): nat {
    3 * (|s.list| + Sum(s.futures, MayPush)) + Phase(s.driver)
    + (if s.driver.WakeFlushing? then |s.batch| else 2 * |s.batch|)
  }

  lemma DriverUsesWork(s: State, a: DriverStep)
    requires Shaped(s) && DriverEnabled(s, a) && !a.TakeEvent? && !Doomed(s)
    ensures Work(ApplyDriver(s, a)) < Work(s)
  {
    if a.Scan? && s.list != [] {
      assert s.list[0] in s.list;
    }
  }

  lemma FutureAddsNoWork(s: State, k: nat, a: FutureStep)
    requires Shaped(s) && k < |s.futures| && FutureEnabled(s, k, a)
    ensures Work(ApplyFuture(s, k, a)) <= Work(s)
  {
    SumUpdate(s.futures, MayPush, k, ApplyFuture(s, k, a).futures[k]);
  }

  lemma StepUsesWork(s: State, step: Step)
    requires Enabled(s, step) && SameEvent(step) && !Doomed(s)
    ensures Work(Apply(s, step)) + B(step.OfDriver?) <= Work(s)
  {
    match step
    case OfDriver(a) => DriverUsesWork(s, a);
    case OfFuture(k, a) => FutureAddsNoWork(s, k, a);
    case OfPoller(d, a) =>
    case Clear(_) =>
  }

  /** How long the holder of the waiters lock still holds it, if that is not the driver. */
  function HoldTime(s: State): nat {
    match s.guard
    case Free => 0
    case ByDriver => 0
    case ByPoller(d) =>
      (match Get(s.pollers, d) case Storing(_) => 3 case Checking(_) => 2 case _ => 1)
    case ByFuture(k) =>
      if k >= |s.futures| then 0
      else match s.futures[k]
        case InitChecking(_) => 3
        case InitPushing(_) => 2
        case WaitLooking(_) => 2
        case _ => 1
  }

  function NextDriverStep(pc: DriverPc): DriverStep {
    match pc
    case Polling => TakeEvent({})
    case Setting(_) => Set
    case WakeLocking(_) => WakeLock
    case WakeReader(_) => TakeReader
    case WakeWriter(_) => TakeWriter
    case WakeScanning(_) => DriverStep.Scan
    case WakeFlushing(_, _) => DriverStep.Flush
    case WakeRelocking(_) => Relock
  }

  function NextHolderStep(s: State): Step {
    match s.guard
    case ByPoller(d) =>
      OfPoller(d, match Get(s.pollers, d) case Storing(_) => Store case Checking(_) => Check case _ => Unlock)
    case ByFuture(k) =>
      OfFuture(k, if k >= |s.futures| then Finish else match s.futures[k]
        case InitChecking(_) => InitCheck
        case InitPushing(_) => InitPush
        case InitUnlocking(_) => InitUnlock
        case WaitLooking(_) => WaitLook
        case WaitLeaving(_) => WaitLeave
        case _ => Finish)
    case _ => OfDriver(NextDriverStep(s.driver))
  }

  /** The driver's next step, or the lock holder's if the driver has to wait for it. */
  function NextStep(s: State): Step {
    if (s.driver.WakeLocking? || s.driver.WakeRelocking?) && !s.guard.Free? then NextHolderStep(s)
    else OfDriver(NextDriverStep(s.driver))
  }

  lemma HolderMoves(s: State)
    requires Inv(s) && (s.guard.ByPoller? || s.guard.ByFuture?)
    ensures Enabled(s, NextHolderStep(s)) && HoldTime(Apply(s, NextHolderStep(s))) < HoldTime(s)
  {
    if s.guard.ByFuture? {
      assert FutureInv(s, s.guard.k, s.futures[s.guard.k]);
    }
  }

  lemma HolderKeepsHope(s: State)
    requires Inv(s) && !Doomed(s) && !Ending(s.driver) && (s.guard.ByPoller? || s.guard.ByFuture?)
    requires Enabled(s, NextHolderStep(s))
    ensures Shaped(Apply(s, NextHolderStep(s))) && !Doomed(Apply(s, NextHolderStep(s)))
  {
    StepKeepsInv(s, NextHolderStep(s));
    if s.guard.ByFuture? {
      assert FutureInv(s, s.guard.k, s.futures[s.guard.k]);
      assert BoundToPush(s, s.guard.k) ==> Met(s, s.guard.k);
    }
  }

  lemma DriverKeepsHope(s: State, a: DriverStep)
    requires Inv(s) && !Doomed(s) && DriverEnabled(s, a) && !a.TakeEvent?
    ensures Shaped(ApplyDriver(s, a)) && !Doomed(ApplyDriver(s, a))
  {
    StepKeepsInv(s, OfDriver(a));
    var t := ApplyDriver(s, a);
    assert forall k :: k in t.list ==> k in s.list;
    if !Ending(t.driver) {
      assert t.driver.event == s.driver.event && !Ending(s.driver);
      forall k | 0 <= k < |t.futures| && BoundToPush(t, k) ensures Met(t, k) {
        assert SeesWanted(s, k) ==> SeesWanted(t, k);
        assert BoundToPush(s, k);
      }
    }
  }

  /** The step that gets the driver further, and what it gets closer to. */
  lemma NextStepMoves(s: State)
    requires Inv(s) && !Doomed(s) && !s.driver.Polling?
    ensures var step := NextStep(s);
            && Enabled(s, step) && SameEvent(step) && Inv(Apply(s, step)) && !Doomed(Apply(s, step))
            && Remaining(Apply(s, step)) < Remaining(s)
  {
    if NextStep(s).OfDriver? {
      DriverKeepsHope(s, NextDriverStep(s.driver));
    } else {
      HolderMoves(s);
      HolderKeepsHope(s);
    }
    StepUsesWork(s, NextStep(s));
    StepKeepsInv(s, NextStep(s));
  }

  /** At most this many steps of the driver and of lock holders bring the driver back. */
  function Remaining(s: State): nat { 4 * Work(s) + HoldTime(s) }

  lemma DriveOn(s: State, done: seq<Step>) returns (steps: seq<Step>)
    requires IsRun(s, done) && OnSameEvent(done) && Inv(After(s, done)) && !Doomed(After(s, done))
    ensures IsRun(s, steps) && OnSameEvent(steps) && Inv(After(s, steps))
    ensures After(s, steps).driver.Polling? && After(s, steps).batch == []
    ensures |steps| <= |done| + Remaining(After(s, done))
    decreases Remaining(After(s, done))
  {
    var t := After(s, done);
    if t.driver.Polling? {
      steps := done;
    } else {
      var step := NextStep(t);
      NextStepMoves(t);
      assert Init(done + [step]) == done && Last(done + [step]) == step;
      steps := DriveOn(s, done + [step]);
    }
  }

  /** The driver is never blocked for good: it and lock holders bring it back to its poll, in bounded time. */
  lemma BackToPoll(s: State) returns (steps: seq<Step>)
    requires Inv(s) && !Doomed(s)
    ensures IsRun(s, steps) && OnSameEvent(steps) && |steps| <= Remaining(s)
    ensures Inv(After(s, steps)) && After(s, steps).driver.Polling? && After(s, steps).batch == []
  {
    steps := DriveOn(s, []);
  }

  /** Some continuation takes the driver back to its poll. */
  ghost predicate CanReturn(s: State) {
    exists t :: Leads(s, t) && t.driver.Polling?
  }

  /**
   The exact condition. `wake` can still return if and only if it has seen the list empty, or every
   listed waiter is satisfied by the event and the holder of the waiters lock is not a future bound
   to push one that is not.
   */
  lemma CanReturnIff(s: State)
    requires Reachable(s) && Shaped(s) && !s.driver.Polling?
    ensures CanReturn(s) <==>
            || (s.driver.WakeFlushing? && s.driver.last)
            || (AllListedMet(s) && forall k :: 0 <= k < |s.futures| && BoundToPush(s, k) ==> Met(s, k))
  {
    ReachableInv(s);
    if Doomed(s) {
      DoomedCannotReturn(s);
    } else {
      var steps := BackToPoll(s);
      assert Leads(s, After(s, steps));
    }
  }

  // ---------------------------------------------------------------------------
  // When it is sure to return
  // ---------------------------------------------------------------------------

  predicate HasWaker(s: State, d: Direction) {
    Get(s.slots, d).Some? && !s.driver.Polling? && Meets(s.driver.event, DirectionFlags(d))
  }

  /** Slot wakers the driver has yet to collect under the lock it holds. */
  function SlotsDue(s: State): nat {
    match s.driver
    case WakeReader(_) => B(HasWaker(s, Read)) + B(HasWaker(s, Write))
    case WakeWriter(_) => B(HasWaker(s, Write))
    case _ => 0
  }

  /** Somebody else will get the waiters lock before the driver sees the list empty. */
  predicate WillRelease(s: State) {
    if DriverHolds(s.driver) then |s.batch| + SlotsDue(s) + |s.list| >= BATCH else !Ending(s.driver)
  }

  predicate PushersMet(s: State)
    requires Shaped(s) && !s.driver.Polling?
  {
    forall k :: 0 <= k < |s.futures| && MayPush(s.futures[k]) == 1 ==> Met(s, k)
  }

  /** No future that the event leaves unsatisfied is listed or can get into the list in time. */
  predicate Secure(s: State)
    requires Shaped(s)
  {
    !Doomed(s) && (WillRelease(s) ==> PushersMet(s))
  }

  lemma DriverKeepsSecure(s: State, a: DriverStep)
    requires Inv(s) && Secure(s) && DriverEnabled(s, a) && !a.TakeEvent?
    ensures Shaped(ApplyDriver(s, a)) && Secure(ApplyDriver(s, a))
  {
    DriverKeepsHope(s, a);
    assert WillRelease(ApplyDriver(s, a)) ==> WillRelease(s);
  }

  lemma FutureKeepsSecure(s: State, k: nat, a: FutureStep)
    requires Inv(s) && Secure(s) && k < |s.futures| && FutureEnabled(s, k, a)
    ensures Shaped(ApplyFuture(s, k, a)) && Secure(ApplyFuture(s, k, a))
  {
    StepKeepsInv(s, OfFuture(k, a));
    var t := ApplyFuture(s, k, a);
    assert FutureInv(s, k, s.futures[k]);
    if !Ending(s.driver) {
      assert s.guard.ByDriver? ==> t.list == s.list && t.guard == s.guard;
      assert s.guard.ByDriver? || PushersMet(s);
    }
  }

  lemma OthersKeepSecure(s: State, step: Step)
    requires Inv(s) && Secure(s) && Enabled(s, step) && (step.OfPoller? || step.Clear?)
    ensures Shaped(Apply(s, step)) && Secure(Apply(s, step))
  {
    StepKeepsInv(s, step);
    var t := Apply(s, step);
    assert t.list == s.list && t.futures == s.futures && t.driver == s.driver && t.batch == s.batch;
    assert DriverHolds(s.driver) ==> t.slots == s.slots;
    forall k | 0 <= k < |t.futures| && !Ending(t.driver) && BoundToPush(t, k) ensures Met(t, k) {
      assert PushersMet(s);
    }
  }

  lemma SecureStep(s: State, step: Step)
    requires Inv(s) && Secure(s) && Enabled(s, step) && SameEvent(step)
    ensures Inv(Apply(s, step)) && Secure(Apply(s, step))
  {
    StepKeepsInv(s, step);
    match step
    case OfDriver(a) => DriverKeepsSecure(s, a);
    case OfFuture(k, a) => FutureKeepsSecure(s, k, a);
    case OfPoller(_, _) => OthersKeepSecure(s, step);
    case Clear(_) => OthersKeepSecure(s, step);
  }

  function DriverSteps(steps: seq<Step>): nat {
    if steps == [] then 0 else DriverSteps(Init(steps)) + B(Last(steps).OfDriver?)
  }

  /**
   Then it stays so, and whoever polls, registers or clears meanwhile, the driver has at most
   `Work(s)` steps to make.
   */
  lemma {:induction false} DriverWorkBounded(s: State, steps: seq<Step>)
    requires Inv(s) && Secure(s) && IsRun(s, steps) && OnSameEvent(steps)
    ensures Inv(After(s, steps)) && Secure(After(s, steps))
    ensures DriverSteps(steps) + Work(After(s, steps)) <= Work(s)
  {
    if steps != [] {
      DriverWorkBounded(s, Init(steps));
      var t := After(s, Init(steps));
      SecureStep(t, Last(steps));
      StepUsesWork(t, Last(steps));
    }
  }

  /** A future that the event leaves unsatisfied takes the lock, having seen its readiness cleared. */
  lemma PusherDooms(s0: State, s: State, k: nat) returns (t: State)
    requires Leads(s0, s) && Inv(s) && !DriverHolds(s.driver) && !Ending(s.driver)
    requires k < |s.futures| && MayPush(s.futures[k]) == 1 && !Met(s, k)
    requires s.guard.Free? || s.guard == ByFuture(k)
    ensures Leads(s0, t) && Inv(t) && Doomed(t)
  {
    assert FutureInv(s, k, s.futures[k]);
    StepKeepsInv(s, Clear(Wants(s, k)));
    LeadsFurther(s0, s, Clear(Wants(s, k)));
    t := Apply(s, Clear(Wants(s, k)));
    assert !SeesWanted(t, k);
    if t.futures[k].Fresh? {
      t := PusherMoves(s0, t, k, FirstLoad(0));
    }
    if t.futures[k].InitLocking? {
      t := PusherMoves(s0, t, k, InitLock);
    }
    assert BoundToPush(t, k) && !Met(t, k);
  }

  lemma PusherMoves(s0: State, s: State, k: nat, a: FutureStep) returns (t: State)
    requires Leads(s0, s) && Inv(s) && !Ending(s.driver) && k < |s.futures| && FutureEnabled(s, k, a)
    requires !Met(s, k) && !SeesWanted(s, k) && (a.FirstLoad? || a.InitLock?)
    ensures Leads(s0, t) && Inv(t) && t.driver == s.driver && |t.futures| == |s.futures|
    ensures !Met(t, k) && !SeesWanted(t, k)
    ensures if a.FirstLoad? then t.futures[k].InitLocking? && t.guard == s.guard
            else t.futures[k].InitChecking? && t.guard == ByFuture(k)
  {
    StepKeepsInv(s, OfFuture(k, a));
    LeadsFurther(s0, s, OfFuture(k, a));
    t := Apply(s, OfFuture(k, a));
  }

  /** What future `k` and the driver's event are, is the same in `t`, and the lock is still to come free. */
  predicate StillAhead(s: State, t: State, k: nat) {
    && !s.driver.Polling? && !t.driver.Polling? && t.driver.event == s.driver.event && t.interests == s.interests
    && k < |s.futures| == |t.futures| && t.futures[k] == s.futures[k] && WillRelease(t)
  }

  /** While the driver has the lock it goes on until it lets go. */
  lemma DriverLetsGo(s: State, k: nat)
    requires Inv(s) && !Doomed(s) && WillRelease(s) && k < |s.futures| && DriverHolds(s.driver)
    ensures var step := OfDriver(NextDriverStep(s.driver));
            && Enabled(s, step) && SameEvent(step) && Remaining(Apply(s, step)) < Remaining(s)
            && StillAhead(s, Apply(s, step), k)
  {
    StepUsesWork(s, OfDriver(NextDriverStep(s.driver)));
  }

  /** Another holder leaves. */
  lemma HolderLetsGo(s: State, k: nat)
    requires Inv(s) && !Doomed(s) && WillRelease(s) && k < |s.futures| && !DriverHolds(s.driver)
    requires !s.guard.Free? && s.guard != ByFuture(k)
    ensures var step := NextHolderStep(s);
            && Enabled(s, step) && SameEvent(step) && Remaining(Apply(s, step)) < Remaining(s)
            && StillAhead(s, Apply(s, step), k)
  {
    HolderMoves(s);
    StepUsesWork(s, NextHolderStep(s));
  }

  lemma UnmetPusherDooms(s0: State, s: State, k: nat) returns (t: State)
    requires Leads(s0, s) && Inv(s) && WillRelease(s) && !s.driver.Polling?
    requires k < |s.futures| && MayPush(s.futures[k]) == 1 && !Met(s, k)
    ensures Leads(s0, t) && Inv(t) && Doomed(t)
    decreases Remaining(s)
  {
    if Doomed(s) {
      t := s;
    } else if DriverHolds(s.driver) || (!s.guard.Free? && s.guard != ByFuture(k)) {
      if DriverHolds(s.driver) {
        DriverLetsGo(s, k);
      } else {
        HolderLetsGo(s, k);
      }
      var step := if DriverHolds(s.driver) then OfDriver(NextDriverStep(s.driver)) else NextHolderStep(s);
      StepKeepsInv(s, step);
      LeadsFurther(s0, s, step);
      t := UnmetPusherDooms(s0, Apply(s, step), k);
    } else {
      t := PusherDooms(s0, s, k);
    }
  }

  /**
   `wake` is sure to return, in that its return stays within reach in every continuation, if and only
   if no waiter that the event leaves unsatisfied is listed, bound to be, or can get into the list
   before the driver sees it empty.
   */
  lemma SureToReturnIff(s: State)
    requires Reachable(s) && Shaped(s) && !s.driver.Polling?
    ensures (forall t :: Leads(s, t) ==> CanReturn(t)) <==> Secure(s)
  {
    ReachableInv(s);
    if Secure(s) {
      forall t | Leads(s, t) ensures CanReturn(t) {
        var steps :| IsRun(s, steps) && OnSameEvent(steps) && After(s, steps) == t;
        DriverWorkBounded(s, steps);
        var more := BackToPoll(t);
        assert Leads(t, After(t, more));
      }
    } else {
      LeadsNowhere(s);
      var t := s;
      if !Doomed(s) {
        var k :| 0 <= k < |s.futures| && MayPush(s.futures[k]) == 1 && !Met(s, k);
        t := UnmetPusherDooms(s, s, k);
      }
      DoomedCannotReturn(t);
    }
  }

  lemma DoomedCannotReturn(s: State)
    requires Inv(s) && Doomed(s)
    ensures !CanReturn(s)
  {
    forall t | Leads(s, t) ensures !t.driver.Polling? {
      var steps :| IsRun(s, steps) && OnSameEvent(steps) && After(s, steps) == t;
      DoomedForEver(s, steps);
    }
  }

  // ---------------------------------------------------------------------------
  // The scan is the loop of `WakeLoop`
  // ---------------------------------------------------------------------------

  function BatchWakers(s: State): seq<nat> {
    seq(|s.batch|, i requires 0 <= i < |s.batch| => s.batch[i].w)
  }

  /** The driver's scan as that loop sees it, `calls` called before. */
  function LoopOf(s: State, calls: seq<nat>): WL.Loop
    requires Shaped(s)
  {
    WL.Loop(seq(|s.list|, i requires 0 <= i < |s.list| => WL.Waiter(s.wakers[s.list[i]], s.interests[s.list[i]])),
            BatchWakers(s), calls,
            s.driver.WakeFlushing? && s.driver.last)
  }

  /** With room in the batch, one step of the scan is one turn. */
  lemma ScanIsTurn(s: State, ready: nat, calls: seq<nat>)
    requires Shaped(s) && s.driver.WakeScanning? && s.driver.event == Flags(ready) && |s.batch| < BATCH
    ensures var t := ApplyDriver(s, DriverStep.Scan);
            Shaped(t) && LoopOf(t, calls) == WL.Turn(ready, LoopOf(s, calls))
  {
    if s.list != [] {
      var i := s.interests[s.list[0]];
      SatisfiesMeansWanted(ready, i);
      assert Meets(Flags(ready), Wanted(i)) <==> Flags(ready) * Wanted(i) != {} by {
        if f :| f in Flags(ready) * Wanted(i) {
          assert Meets(Flags(ready), Wanted(i));
        }
      }
    }
  }

  /** The wakers called during a run, in order. */
  function Called(s: State, steps: seq<Step>): seq<nat>
    requires IsRun(s, steps)
  {
    if steps == [] then []
    else
      var t := After(s, Init(steps));
      Called(s, Init(steps))
      + if Last(steps) == OfDriver(DriverStep.Flush) && t.batch != [] then [t.batch[0].w] else []
  }

  lemma CalledNext(s: State, done: seq<Step>, step: Step)
    requires IsRun(s, done) && Enabled(After(s, done), step)
    ensures var steps, t := done + [step], After(s, done);
            && IsRun(s, steps) && After(s, steps) == Apply(t, step)
            && Called(s, steps) == Called(s, done)
               + if step == OfDriver(DriverStep.Flush) && t.batch != [] then [t.batch[0].w] else []
  {
    assert Init(done + [step]) == done && Last(done + [step]) == step;
  }

  /** Calling the batch waker by waker empties it in order. */
  lemma FlushBatch(s: State, done: seq<Step>) returns (steps: seq<Step>)
    requires IsRun(s, done) && Shaped(After(s, done)) && After(s, done).driver.WakeFlushing?
    ensures IsRun(s, steps) && After(s, steps).batch == []
    ensures After(s, steps) == After(s, done).(batch := [], woken := After(s, steps).woken)
    ensures Called(s, steps) == Called(s, done) + BatchWakers(After(s, done))
    decreases |After(s, done).batch|
  {
    var t := After(s, done);
    if t.batch == [] {
      steps := done;
    } else {
      var step := OfDriver(DriverStep.Flush);
      CalledNext(s, done, step);
      assert BatchWakers(t) == [t.batch[0].w] + BatchWakers(Apply(t, step));
      steps := FlushBatch(s, done + [step]);
    }
  }

  /** A full batch: unlocking, calling each waker and locking again, undisturbed, is one turn. */
  lemma FullBatchIsTurn(s: State, ready: nat, calls: seq<nat>) returns (steps: seq<Step>)
    requires Shaped(s) && s.driver.WakeScanning? && s.guard.ByDriver? && |s.batch| == BATCH
    ensures IsRun(s, steps) && Shaped(After(s, steps)) && After(s, steps).driver == s.driver
    ensures After(s, steps).guard == s.guard
    ensures LoopOf(After(s, steps), calls + Called(s, steps)) == WL.Turn(ready, LoopOf(s, calls))
  {
    steps := RunFullBatch(s);
    EmptyBatchIsTurn(s, After(s, steps), ready, calls);
  }

  lemma EmptyBatchIsTurn(s: State, t: State, ready: nat, calls: seq<nat>)
    requires Shaped(s) && s.driver.WakeScanning? && |s.batch| == BATCH && t == s.(batch := [], woken := t.woken)
    ensures LoopOf(t, calls + BatchWakers(s)) == WL.Turn(ready, LoopOf(s, calls))
  {
  }

  lemma RunFullBatch(s: State) returns (steps: seq<Step>)
    requires Shaped(s) && s.driver.WakeScanning? && s.guard.ByDriver? && |s.batch| == BATCH
    ensures IsRun(s, steps) && After(s, steps) == s.(batch := [], woken := After(s, steps).woken)
    ensures Called(s, steps) == BatchWakers(s)
  {
    var scan := OfDriver(DriverStep.Scan);
    CalledNext(s, [], scan);
    var first := [] + [scan];
    assert After(s, first) == s.(guard := Free, driver := WakeFlushing(s.driver.event, false));
    var flushed := FlushBatch(s, first);
    steps := LockAgain(s, flushed);
  }

  lemma LockAgain(s: State, done: seq<Step>) returns (steps: seq<Step>)
    requires IsRun(s, done) && Shaped(After(s, done)) && After(s, done).guard.Free? && After(s, done).batch == []
    requires After(s, done).driver.WakeFlushing? && !After(s, done).driver.last
    ensures IsRun(s, steps) && Called(s, steps) == Called(s, done)
    ensures var t := After(s, done); After(s, steps) == t.(guard := ByDriver, driver := WakeScanning(t.driver.event))
  {
    CalledNext(s, done, OfDriver(DriverStep.Flush));
    steps := done + [OfDriver(DriverStep.Flush)];
    CalledNext(s, steps, OfDriver(Relock));
    steps := steps + [OfDriver(Relock)];
  }
}
