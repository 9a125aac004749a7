/**
 Waiting for readiness: `poll_readiness`, the `Readiness` future and the driver's
 set-then-wake of `src/io/mod.rs`, against one another.

 The readiness word appears by its flags; that a compare-and-swap loop adds and removes flags
 atomically is the subject of `ReadinessRounds`. One poller per direction uses a waker slot, any
 number of `Readiness` futures use the waiter list, and any client may clear any flags at any
 moment. Every load, lock, unlock, list or slot operation and wake is one step.
 */
module IoWaiters {
  import opened Basics
  import opened Sequences
  import opened ReadyFlags
  import WL = WakeLoop

  datatype Direction = Read | Write

  datatype Pair<T> = Pair(read: T, write: T)

  function Get<T>(p: Pair<T>, d: Direction): T { if d.Read? then p.read else p.write }

  function Put<T>(p: Pair<T>, d: Direction, x: T): Pair<T> {
    if d.Read? then p.(read := x) else p.(write := x)
  }

  function DirectionFlags(d: Direction): set<Flag> {
    if d.Read? then {Readable, ReadClosed} else {Writable, WriteClosed}
  }

  predicate Meets(a: set<Flag>, b: set<Flag>) { exists f :: f in a && f in b }

  /** Where a waker was stored: the slot of a direction or the list node of a future. */
  datatype Target = SlotOf(d: Direction) | NodeOf(k: nat)

  /** A waker taken from its place, to be called. */
  datatype Taken = Taken(from: Target, w: nat)

  /** `poll_readiness` in one direction; `w` is the waker of the polling task. */
  datatype PollPc =
    | Resting(pending: Option<nat>)   // Some(w): the last poll returned Pending
    | Loading(w: nat)
    | Locking(w: nat)
    | Storing(w: nat)
    | Checking(w: nat)
    | Unlocking(w: nat, empty: bool)   // `empty`: its second look found nothing

  /** `Readiness::poll` by the state it is in; `w` is the waker of the polling task. */
  datatype FuturePc =
    | Fresh                  // Init, between polls
    | InitLocking(w: nat)    // Init, saw nothing ready
    | InitChecking(w: nat)   // holds the waiters, about to look again
    | InitPushing(w: nat)    // still nothing, about to push its node
    | InitUnlocking(w: nat)  // pushed, state is Waiting
    | WaitLocking(w: nat)    // Waiting, about to lock
    | WaitLooking(w: nat)    // holds the waiters, about to see whether its node is still listed
    | WaitLeaving(w: nat)    // it is, and holds `w` now: about to unlock and return Pending
    | Waiting(w: nat)        // Waiting, the last poll returned Pending
    | Finishing              // its node was removed or it saw readiness: about to unlock
    | Finished

  datatype DriverPc =
    | Polling
    | Setting(event: set<Flag>)
    | WakeLocking(event: set<Flag>)
    | WakeReader(event: set<Flag>)
    | WakeWriter(event: set<Flag>)
    | WakeScanning(event: set<Flag>)
    | WakeFlushing(event: set<Flag>, last: bool)  // unlocked, calling the collected wakers
    | WakeRelocking(event: set<Flag>)

  datatype Guard = Free | ByDriver | ByPoller(d: Direction) | ByFuture(k: nat)

  /** `woken` is auxiliary: the wakers called since their owner last began to poll. */
  datatype State = State(
    ready: set<Flag>,
    guard: Guard,
    slots: Pair<Option<nat>>,
    list: seq<nat>,     // futures whose node is listed, front first
    wakers: seq<nat>,   // the waker in each future's node
    batch: seq<Taken>,
    driver: DriverPc,
    pollers: Pair<PollPc>,
    futures: seq<FuturePc>,
    interests: seq<Interest>,
    woken: set<Taken>)

  const BATCH: nat := WL.BATCH

  function New(interests: seq<Interest>): State {
    State({}, Free, Pair(None, None), [], seq(|interests|, _ => 0), [], Polling, Pair(Resting(None), Resting(None)),
          seq(|interests|, _ => Fresh), interests, {})
  }

  datatype DriverStep = TakeEvent(event: set<Flag>) | Set | WakeLock | TakeReader | TakeWriter | Scan | Flush | Relock

  datatype PollStep = Start(w: nat) | Load | Lock | Store | Check | Unlock

  datatype FutureStep =
    | FirstLoad(w: nat) | InitLock | InitCheck | InitPush | InitUnlock
    | Again(w: nat) | WaitLock | WaitLook | WaitLeave | Finish

  datatype Step =
    | OfDriver(act: DriverStep)
    | OfPoller(d: Direction, poll: PollStep)
    | OfFuture(k: nat, move: FutureStep)
    | Clear(flags: set<Flag>)

  function Wants(s: State, k: nat): set<Flag> requires k < |s.interests| { Wanted(s.interests[k]) }

  predicate Shaped(s: State) {
    && |s.futures| == |s.interests| == |s.wakers|
    && (forall i :: 0 <= i < |s.list| ==> s.list[i] < |s.futures|)
    && |s.batch| <= BATCH
  }

  predicate DriverEnabled(s: State, a: DriverStep) {
    match a
    case TakeEvent(_) => s.driver.Polling?
    case Set => s.driver.Setting?
    case WakeLock => s.driver.WakeLocking? && s.guard.Free?
    case TakeReader => s.driver.WakeReader?
    case TakeWriter => s.driver.WakeWriter?
    case Scan => s.driver.WakeScanning?
    case Flush => s.driver.WakeFlushing?
    case Relock => s.driver.WakeRelocking? && s.guard.Free?
  }

  predicate PollEnabled(s: State, d: Direction, a: PollStep) {
    var pc := Get(s.pollers, d);
    match a
    case Start(_) => pc.Resting?
    case Load => pc.Loading?
    case Lock => pc.Locking? && s.guard.Free?
    case Store => pc.Storing?
    case Check => pc.Checking?
    case Unlock => pc.Unlocking?
  }

  predicate FutureEnabled(s: State, k: nat, a: FutureStep)
    requires k < |s.futures|
  {
    var pc := s.futures[k];
    match a
    case FirstLoad(_) => pc.Fresh?
    case Again(_) => pc.Waiting?
    case InitLock => pc.InitLocking? && s.guard.Free?
    case InitCheck => pc.InitChecking?
    case InitPush => pc.InitPushing?
    case InitUnlock => pc.InitUnlocking?
    case WaitLock => pc.WaitLocking? && s.guard.Free?
    case WaitLook => pc.WaitLooking?
    case WaitLeave => pc.WaitLeaving?
    case Finish => pc.Finishing?
  }

  predicate Enabled(s: State, step: Step) {
    Shaped(s) &&
    match step
    case OfDriver(a) => DriverEnabled(s, a)
    case OfPoller(d, a) => PollEnabled(s, d, a)
    case OfFuture(k, a) => k < |s.futures| && FutureEnabled(s, k, a)
    case Clear(_) => true
  }

  // ---------------------------------------------------------------------------
  // The driver
  // ---------------------------------------------------------------------------

  /** `take()` of a direction's slot if the event concerns it. */
  function TakeSlot(s: State, d: Direction, next: DriverPc): State
    requires s.driver.WakeReader? || s.driver.WakeWriter?
  {
    if Meets(s.driver.event, DirectionFlags(d)) && Get(s.slots, d).Some? then
      s.(slots := Put(s.slots, d, None), batch := s.batch + [Taken(SlotOf(d), Get(s.slots, d).value)], driver := next)
    else s.(driver := next)
  }

  /**
   One turn of the loop over the list. A front waiter that the event does not satisfy leaves
   everything as it is, so the next turn looks at the same waiter again.
   */
  function Scan(s: State): State
    requires Shaped(s) && s.driver.WakeScanning?
  {
    var e := s.driver.event;
    if |s.batch| >= BATCH then s.(guard := Free, driver := WakeFlushing(e, false))
    else if s.list == [] then s.(guard := Free, driver := WakeFlushing(e, true))
    else if Meets(e, Wants(s, s.list[0])) then
      s.(list := s.list[1..], batch := s.batch + [Taken(NodeOf(s.list[0]), s.wakers[s.list[0]])])
    else s
  }

  /** A poll that begins forgets which wakers were called before it. */
  function Unwoken(woken: set<Taken>, place: Target): set<Taken> {
    set e | e in woken && e.from != place
  }

  function Flush(s: State): State
    requires s.driver.WakeFlushing?
  {
    if s.batch != [] then s.(batch := s.batch[1..], woken := s.woken + {s.batch[0]})
    else if s.driver.last then s.(driver := Polling)
    else s.(driver := WakeRelocking(s.driver.event))
  }

  function ApplyDriver(s: State, a: DriverStep): State
    requires Shaped(s) && DriverEnabled(s, a)
  {
    match a
    case TakeEvent(e) => s.(driver := Setting(e))
    case Set => s.(ready := s.ready + s.driver.event, driver := WakeLocking(s.driver.event))
    case WakeLock => s.(guard := ByDriver, driver := WakeReader(s.driver.event))
    case TakeReader => TakeSlot(s, Read, WakeWriter(s.driver.event))
    case TakeWriter => TakeSlot(s, Write, WakeScanning(s.driver.event))
    case Scan => Scan(s)
    case Flush => Flush(s)
    case Relock => s.(guard := ByDriver, driver := WakeScanning(s.driver.event))
  }

  // ---------------------------------------------------------------------------
  // The pollers
  // ---------------------------------------------------------------------------

  function AtPoll(s: State, d: Direction, pc: PollPc): State { s.(pollers := Put(s.pollers, d, pc)) }

  predicate SeesReady(s: State, d: Direction) { Meets(s.ready, DirectionFlags(d)) }

  function ApplyPoll(s: State, d: Direction, a: PollStep): State
    requires PollEnabled(s, d, a)
  {
    var pc := Get(s.pollers, d);
    match a
    case Start(w) => AtPoll(s, d, Loading(w)).(woken := Unwoken(s.woken, SlotOf(d)))
    case Load => AtPoll(s, d, if SeesReady(s, d) then Resting(None) else Locking(pc.w))
    case Lock => AtPoll(s, d, Storing(pc.w)).(guard := ByPoller(d))
    case Store => AtPoll(s, d, Checking(pc.w)).(slots := Put(s.slots, d, Some(pc.w)))
    case Check => AtPoll(s, d, Unlocking(pc.w, !SeesReady(s, d)))
    case Unlock => AtPoll(s, d, Resting(if pc.empty then Some(pc.w) else None)).(guard := Free)
  }

  // ---------------------------------------------------------------------------
  // The futures
  // ---------------------------------------------------------------------------

  function AtFuture(s: State, k: nat, pc: FuturePc): State
    requires k < |s.futures|
  {
    s.(futures := s.futures[k := pc])
  }

  predicate SeesWanted(s: State, k: nat) requires k < |s.interests| { Meets(s.ready, Wants(s, k)) }

  /** `push_front` with the waker of this poll. */
  function Push(s: State, k: nat): State
    requires Shaped(s) && k < |s.futures| && s.futures[k].InitPushing?
  {
    var w := s.futures[k].w;
    AtFuture(s, k, InitUnlocking(w)).(list := [k] + s.list, wakers := s.wakers[k := w])
  }

  /** A node still listed gets the waker of this poll; one removed ends the wait. */
  function Look(s: State, k: nat): State
    requires Shaped(s) && k < |s.futures| && s.futures[k].WaitLooking?
  {
    var w := s.futures[k].w;
    if k in s.list then AtFuture(s, k, WaitLeaving(w)).(wakers := s.wakers[k := w])
    else AtFuture(s, k, Finishing)
  }

  function ApplyFuture(s: State, k: nat, a: FutureStep): State
    requires Shaped(s) && k < |s.futures| && FutureEnabled(s, k, a)
  {
    var pc := s.futures[k];
    match a
    case FirstLoad(w) => AtFuture(s, k, if SeesWanted(s, k) then Finished else InitLocking(w))
    case Again(w) => AtFuture(s, k, WaitLocking(w)).(woken := Unwoken(s.woken, NodeOf(k)))
    case InitLock => AtFuture(s, k, InitChecking(pc.w)).(guard := ByFuture(k))
    case InitCheck => AtFuture(s, k, if SeesWanted(s, k) then Finishing else InitPushing(pc.w))
    case InitPush => Push(s, k)
    case InitUnlock => AtFuture(s, k, WaitLocking(pc.w)).(guard := Free)
    case WaitLock => AtFuture(s, k, WaitLooking(pc.w)).(guard := ByFuture(k))
    case WaitLook => Look(s, k)
    case WaitLeave => AtFuture(s, k, Waiting(pc.w)).(guard := Free)
    case Finish => AtFuture(s, k, Finished).(guard := Free)
  }

  function Apply(s: State, step: Step): State
    requires Enabled(s, step)
  {
    match step
    case OfDriver(a) => ApplyDriver(s, a)
    case OfPoller(d, a) => ApplyPoll(s, d, a)
    case OfFuture(k, a) => ApplyFuture(s, k, a)
    case Clear(flags) => s.(ready := s.ready - flags)
  }

  // ---------------------------------------------------------------------------
  // The invariant
  // ---------------------------------------------------------------------------

  predicate PollerHolds(pc: PollPc) { pc.Storing? || pc.Checking? || pc.Unlocking? }

  predicate FutureHolds(pc: FuturePc) {
    || pc.InitChecking? || pc.InitPushing? || pc.InitUnlocking?
    || pc.WaitLooking? || pc.WaitLeaving? || pc.Finishing?
  }

  predicate DriverHolds(pc: DriverPc) { pc.WakeReader? || pc.WakeWriter? || pc.WakeScanning? }

  /** Its node may be in the list. */
  predicate MayBeListed(pc: FuturePc) {
    pc.InitUnlocking? || pc.WaitLocking? || pc.WaitLooking? || pc.WaitLeaving? || pc.Waiting?
  }

  /** The driver has set an event that concerns `d` and has yet to look at that slot. */
  predicate WillTakeSlot(s: State, d: Direction) {
    && (s.driver.WakeLocking? || s.driver.WakeReader? || (s.driver.WakeWriter? && d.Write?))
    && Meets(s.driver.event, DirectionFlags(d))
  }

  /** The driver has set an event with these flags and returns only on an empty list. */
  predicate WillScanFor(s: State, wanted: set<Flag>) {
    && (s.driver.WakeLocking? || s.driver.WakeReader? || s.driver.WakeWriter? || s.driver.WakeScanning?
        || (s.driver.WakeFlushing? && !s.driver.last) || s.driver.WakeRelocking?)
    && Meets(s.driver.event, wanted)
  }

  /** The driver holds this waker ready to call, or has called it since the poll that left it. */
  predicate HandedOn(s: State, from: Target, w: nat) {
    Taken(from, w) in s.batch || Taken(from, w) in s.woken
  }

  predicate SlotInv(s: State, d: Direction) {
    var pc := Get(s.pollers, d);
    && (pc.Checking? || pc.Unlocking? ==> Get(s.slots, d) == Some(pc.w))
    && (pc.Unlocking? && pc.empty && SeesReady(s, d) ==> WillTakeSlot(s, d))
    && (pc.Resting? && pc.pending.Some? ==>
          (Get(s.slots, d) == pc.pending || HandedOn(s, SlotOf(d), pc.pending.value))
          && (Get(s.slots, d) == pc.pending && SeesReady(s, d) ==> WillTakeSlot(s, d)))
  }

  predicate FutureInv(s: State, k: nat, pc: FuturePc)
    requires Shaped(s) && k < |s.interests|
  {
    && (FutureHolds(pc) <==> s.guard == ByFuture(k))
    && (k in s.list ==> MayBeListed(pc))
    && (k in s.list && SeesWanted(s, k) ==> WillScanFor(s, Wants(s, k)))
    && (pc.InitPushing? && SeesWanted(s, k) ==> WillScanFor(s, Wants(s, k)))
    && (pc.WaitLeaving? ==> k in s.list && s.wakers[k] == pc.w)
    && (pc.Waiting? ==> (k in s.list && s.wakers[k] == pc.w) || HandedOn(s, NodeOf(k), pc.w))
  }

  predicate BatchEmpty(pc: DriverPc) {
    pc.Polling? || pc.Setting? || pc.WakeLocking? || pc.WakeRelocking? || pc.WakeReader?
  }

  ghost predicate Inv(s: State) {
    && Shaped(s)
    && Distinct(s.list)
    && (DriverHolds(s.driver) <==> s.guard.ByDriver?)
    && (BatchEmpty(s.driver) ==> s.batch == [])
    && (s.driver.WakeWriter? ==> |s.batch| <= 1)
    && (PollerHolds(s.pollers.read) <==> s.guard == ByPoller(Read))
    && (PollerHolds(s.pollers.write) <==> s.guard == ByPoller(Write))
    && SlotInv(s, Read) && SlotInv(s, Write)
    && (s.guard.ByFuture? ==> s.guard.k < |s.futures|)
    && (forall k :: 0 <= k < |s.futures| ==> FutureInv(s, k, s.futures[k]))
  }

  lemma NewInv(interests: seq<Interest>)
    ensures Inv(New(interests))
  {
  }

  lemma PollLookKeepsInv(s: State, d: Direction, a: PollStep)
    requires Inv(s) && PollEnabled(s, d, a) && (a.Start? || a.Load? || a.Check?)
    ensures Inv(ApplyPoll(s, d, a))
  {
  }

  lemma PollLockKeepsInv(s: State, d: Direction, a: PollStep)
    requires Inv(s) && PollEnabled(s, d, a) && (a.Lock? || a.Store? || a.Unlock?)
    ensures Inv(ApplyPoll(s, d, a))
  {
  }

  lemma InitPushKeepsInv(s: State, k: nat)
    requires Inv(s) && k < |s.futures| && s.futures[k].InitPushing?
    ensures Inv(Push(s, k))
  {
  }

  lemma FutureLookKeepsInv(s: State, k: nat, a: FutureStep)
    requires Inv(s) && k < |s.futures| && FutureEnabled(s, k, a)
    requires a.FirstLoad? || a.InitCheck?
    ensures Inv(ApplyFuture(s, k, a))
  {
  }

  lemma AgainKeepsInv(s: State, k: nat, w: nat)
    requires Inv(s) && k < |s.futures| && s.futures[k].Waiting?
    ensures Inv(ApplyFuture(s, k, Again(w)))
  {
  }

  lemma WaitLookKeepsInv(s: State, k: nat)
    requires Inv(s) && k < |s.futures| && s.futures[k].WaitLooking?
    ensures Inv(Look(s, k))
  {
  }

  lemma FutureLockKeepsInv(s: State, k: nat, a: FutureStep)
    requires Inv(s) && k < |s.futures| && FutureEnabled(s, k, a) && (a.InitLock? || a.WaitLock?)
    ensures Inv(ApplyFuture(s, k, a))
  {
  }

  lemma FutureUnlockKeepsInv(s: State, k: nat, a: FutureStep)
    requires Inv(s) && k < |s.futures| && FutureEnabled(s, k, a)
    requires a.InitUnlock? || a.WaitLeave? || a.Finish?
    ensures Inv(ApplyFuture(s, k, a))
  {
  }

  lemma ScanKeepsInv(s: State)
    requires Inv(s) && s.driver.WakeScanning?
    ensures Inv(Scan(s))
  {
  }

  lemma FlushKeepsInv(s: State)
    requires Inv(s) && s.driver.WakeFlushing?
    ensures Inv(Flush(s))
  {
  }

  lemma TakeSlotKeepsInv(s: State, a: DriverStep)
    requires Inv(s) && DriverEnabled(s, a) && (a.TakeReader? || a.TakeWriter?)
    ensures Inv(ApplyDriver(s, a))
  {
  }

  lemma DriverMoveKeepsInv(s: State, a: DriverStep)
    requires Inv(s) && DriverEnabled(s, a)
    requires a.TakeEvent? || a.Set? || a.WakeLock? || a.Relock?
    ensures Inv(ApplyDriver(s, a))
  {
  }

  lemma ClearKeepsInv(s: State, flags: set<Flag>)
    requires Inv(s)
    ensures Inv(s.(ready := s.ready - flags))
  {
  }

  lemma StepKeepsInv(s: State, step: Step)
    requires Inv(s) && Enabled(s, step)
    ensures Inv(Apply(s, step))
  {
    match step
    case OfPoller(d, a) =>
      if a.Start? || a.Load? || a.Check? {
        PollLookKeepsInv(s, d, a);
      } else {
        PollLockKeepsInv(s, d, a);
      }
    case Clear(flags) => ClearKeepsInv(s, flags);
    case OfDriver(a) =>
      if a.Scan? {
        ScanKeepsInv(s);
      } else if a.Flush? {
        FlushKeepsInv(s);
      } else if a.TakeReader? || a.TakeWriter? {
        TakeSlotKeepsInv(s, a);
      } else {
        DriverMoveKeepsInv(s, a);
      }
    case OfFuture(k, a) =>
      if a.InitPush? {
        InitPushKeepsInv(s, k);
      } else if a.InitLock? || a.WaitLock? {
        FutureLockKeepsInv(s, k, a);
      } else if a.InitUnlock? || a.WaitLeave? || a.Finish? {
        FutureUnlockKeepsInv(s, k, a);
      } else if a.Again? {
        AgainKeepsInv(s, k, a.w);
      } else if a.WaitLook? {
        WaitLookKeepsInv(s, k);
      } else {
        FutureLookKeepsInv(s, k, a);
      }
  }

  // ---------------------------------------------------------------------------
  // Whole runs
  // ---------------------------------------------------------------------------

  predicate IsRun(s: State, steps: seq<Step>)
    decreases |steps|, 0
  {
    steps == [] || (IsRun(s, Init(steps)) && Enabled(After(s, Init(steps)), Last(steps)))
  }

  function After(s: State, steps: seq<Step>): State
    requires IsRun(s, steps)
    decreases |steps|, 1
  {
    if steps == [] then s else Apply(After(s, Init(steps)), Last(steps))
  }

  lemma {:induction false} RunInv(interests: seq<Interest>, steps: seq<Step>)
    requires IsRun(New(interests), steps)
    ensures Inv(After(New(interests), steps))
  {
    if steps == [] {
      NewInv(interests);
    } else {
      RunInv(interests, Init(steps));
      StepKeepsInv(After(New(interests), Init(steps)), Last(steps));
    }
  }

  ghost predicate Reachable(s: State) {
    exists interests, steps :: IsRun(New(interests), steps) && s == After(New(interests), steps)
  }

  lemma ReachableInv(s: State)
    requires Reachable(s)
    ensures Inv(s)
  {
    var interests, steps :| IsRun(New(interests), steps) && s == After(New(interests), steps);
    RunInv(interests, steps);
  }

  /** The poller of `d` was last told Pending and left `w`, and the word now shows readiness for it. */
  predicate PollerOwed(s: State, d: Direction, w: nat) {
    Get(s.pollers, d) == Resting(Some(w)) && SeesReady(s, d)
  }

  /** Likewise for the `Readiness` future `k`. */
  predicate FutureOwed(s: State, k: nat, w: nat)
    requires Shaped(s)
  {
    k < |s.futures| && s.futures[k] == Waiting(w) && SeesWanted(s, k)
  }

  /**
   The waker of the poll that was told Pending is in its slot and the driver is about to take it
   for an event that concerns it, or the driver holds that waker ready to call, or has called it.
   */
  lemma PollerNeverForgotten(s: State, d: Direction, w: nat)
    requires Reachable(s) && PollerOwed(s, d, w)
    ensures (Get(s.slots, d) == Some(w) && WillTakeSlot(s, d)) || HandedOn(s, SlotOf(d), w)
    ensures Get(s.slots, d) == Some(w) ==> WillTakeSlot(s, d)
  {
    ReachableInv(s);
  }

  lemma FutureNeverForgotten(s: State, k: nat, w: nat)
    requires Reachable(s) && Shaped(s) && FutureOwed(s, k, w)
    ensures (k in s.list && s.wakers[k] == w && WillScanFor(s, Wants(s, k))) || HandedOn(s, NodeOf(k), w)
    ensures k in s.list ==> WillScanFor(s, Wants(s, k))
  {
    ReachableInv(s);
  }

  /** Once the driver is back in its poll, everyone told Pending despite readiness was woken. */
  lemma IdleDriverHasWokenAll(s: State)
    requires Reachable(s) && s.driver.Polling?
    ensures Shaped(s)
    ensures forall d, w :: PollerOwed(s, d, w) ==> Taken(SlotOf(d), w) in s.woken
    ensures forall k, w :: FutureOwed(s, k, w) ==> Taken(NodeOf(k), w) in s.woken
  {
    ReachableInv(s);
    forall d, w | PollerOwed(s, d, w) ensures Taken(SlotOf(d), w) in s.woken {
      PollerNeverForgotten(s, d, w);
    }
    forall k, w | FutureOwed(s, k, w) ensures Taken(NodeOf(k), w) in s.woken {
      FutureNeverForgotten(s, k, w);
    }
  }

  // ---------------------------------------------------------------------------
  // A front waiter the event does not satisfy
  // ---------------------------------------------------------------------------

  /** The driver is at its list, has room in its batch, and the front waiter wants other flags. */
  predicate Wedged(s: State) {
    && Shaped(s) && s.driver.WakeScanning? && |s.batch| < BATCH
    && s.list != [] && !Meets(s.driver.event, Wants(s, s.list[0]))
  }

  /** Nobody can help: every later state of every run has the driver at the same waiter, lock held. */
  lemma {:induction false} WedgedForever(s: State, steps: seq<Step>)
    requires Inv(s) && Wedged(s) && IsRun(s, steps)
    ensures Inv(After(s, steps)) && Wedged(After(s, steps)) && After(s, steps).guard.ByDriver?
    ensures After(s, steps).list == s.list && After(s, steps).batch == s.batch
  {
    if steps != [] {
      WedgedForever(s, Init(steps));
      WedgedStep(After(s, Init(steps)), Last(steps));
      StepKeepsInv(After(s, Init(steps)), Last(steps));
    }
  }

  lemma WedgedStep(s: State, step: Step)
    requires Inv(s) && Wedged(s) && Enabled(s, step)
    ensures Wedged(Apply(s, step)) && Apply(s, step).list == s.list && Apply(s, step).batch == s.batch
  {
    if step.OfFuture? {
      assert FutureInv(s, step.k, s.futures[step.k]);
    }
  }

  /** Holds of whatever a step leads to, if it holds before. */
  ghost predicate Closed(P: State -> bool) {
    forall s, step :: P(s) && Enabled(s, step) ==> P(Apply(s, step))
  }

  /** A future that waits for `Writable` pushes its node. */
  lemma WriterWaits(P: State -> bool, writable: Interest) returns (s: State)
    requires Closed(P) && P(New([writable])) && writable == Interest(false, true, false)
    ensures P(s) && s == New([writable]).(futures := [WaitLocking(5)], list := [0], wakers := [5])
  {
    var s0 := New([writable]);
    var s1 := s0.(futures := [InitLocking(5)]);
    var s2 := s0.(futures := [InitChecking(5)], guard := ByFuture(0));
    var s3 := s2.(futures := [InitPushing(5)]);
    var s4 := s2.(futures := [InitUnlocking(5)], list := [0], wakers := [5]);
    s := s4.(futures := [WaitLocking(5)], guard := Free);
    assert Enabled(s0, OfFuture(0, FirstLoad(5))) && Apply(s0, OfFuture(0, FirstLoad(5))) == s1;
    assert Enabled(s1, OfFuture(0, InitLock)) && Apply(s1, OfFuture(0, InitLock)) == s2;
    assert Enabled(s2, OfFuture(0, InitCheck)) && Apply(s2, OfFuture(0, InitCheck)) == s3;
    assert Enabled(s3, OfFuture(0, InitPush)) && Apply(s3, OfFuture(0, InitPush)) == s4;
    assert Enabled(s4, OfFuture(0, InitUnlock)) && Apply(s4, OfFuture(0, InitUnlock)) == s;
  }

  /** The driver meets it with an event that is only `Readable`. */
  lemma ReadableArrives(P: State -> bool, s0: State) returns (s: State)
    requires Closed(P) && P(s0) && Shaped(s0) && s0.driver.Polling? && s0.guard.Free? && s0.batch == []
    requires s0.slots == Pair(None, None) && s0.list == [0]
    requires |s0.interests| == 1 && Wants(s0, 0) == {Writable, WriteClosed}
    ensures P(s) && Wedged(s)
  {
    var e := {Readable};
    var s1 := s0.(driver := Setting(e));
    var s2 := s0.(driver := WakeLocking(e), ready := s0.ready + e);
    var s3 := s2.(driver := WakeReader(e), guard := ByDriver);
    var s4 := s3.(driver := WakeWriter(e));
    s := s3.(driver := WakeScanning(e));
    assert Enabled(s0, OfDriver(TakeEvent(e))) && Apply(s0, OfDriver(TakeEvent(e))) == s1;
    assert Enabled(s1, OfDriver(Set)) && Apply(s1, OfDriver(Set)) == s2;
    assert Enabled(s2, OfDriver(WakeLock)) && Apply(s2, OfDriver(WakeLock)) == s3;
    assert Enabled(s3, OfDriver(TakeReader)) && Apply(s3, OfDriver(TakeReader)) == s4;
    assert Enabled(s4, OfDriver(TakeWriter)) && Apply(s4, OfDriver(TakeWriter)) == s;
  }

  /** Ten steps from a fresh source lead there: one future that wants to write, one readable event. */
  lemma WedgeIsReachable()
    ensures exists s :: Reachable(s) && Wedged(s)
  {
    var P := (s: State) => Reachable(s);
    assert Closed(P) by {
      forall s, step | P(s) && Enabled(s, step) ensures P(Apply(s, step)) {
        Extend(s, step);
      }
    }
    var writable := Interest(false, true, false);
    assert P(New([writable])) by {
      assert IsRun(New([writable]), []) && After(New([writable]), []) == New([writable]);
    }
    var s1 := WriterWaits(P, writable);
    var s2 := ReadableArrives(P, s1);
  }

  lemma Extend(s: State, step: Step)
    requires Reachable(s) && Enabled(s, step)
    ensures Reachable(Apply(s, step))
  {
    var interests, steps :| IsRun(New(interests), steps) && s == After(New(interests), steps);
    assert Init(steps + [step]) == steps && Last(steps + [step]) == step;
    assert After(New(interests), steps + [step]) == Apply(s, step);
  }
}
