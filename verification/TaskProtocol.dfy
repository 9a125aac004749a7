/**
 The life of one task: `src/task.rs` and the join half in `src/join_handle.rs`.

 Any number of threads wake, run and cancel the task while its one `JoinHandle` is polled.
 Every atomic read-modify-write, lock, unlock, queue operation and `AtomicWaker` call is one
 step. A poll of the user's future may return anything; wakes it issues are steps of another
 thread of the model, which may fall anywhere, so also inside the poll. How an enqueued task
 gets a worker's attention is the subject of `Parking`.
 */
module TaskProtocol {
  import opened Basics
  import opened Sequences

  datatype TaskState = IDLE | RUNNING | COMPLETED | CANCELLED | NOTIFIED

  /** `Result<F::Output, JoinError>` */
  datatype Outcome = Value(v: int) | Panicked | Aborted

  /** `JoinInner<F>` */
  datatype Slot = Future | Return(val: Outcome)

  datatype PollResult = Pending | Finished(outcome: Outcome)

  /** Where a thread is. */
  datatype Pc =
    | Elsewhere
    | Waking         // wake_by_ref called, not queued anywhere yet
    | Enqueueing     // schedule_global, before the queue lock
    | Announcing     // schedule_global, after it
    | Entering       // run, before its first state update
    | OwnLocking     // won IDLE -> RUNNING, about to lock the future
    | OwnMatching    // holds it, about to look at the slot
    | OwnPolling     // inside the user's poll
    | OwnPublishing  // slot holds the result, about to store COMPLETED
    | OwnYielding    // poll was Pending, about to unlock
    | OwnReleasing   // unlocked, about to make its final state update
    | FinLocking     // finish_cancellation, about to lock the future
    | FinFilling     // holds it, about to replace the slot
    | FinStoring     // about to store COMPLETED
    | Unlocking      // stored COMPLETED, about to unlock
    | JoinWaking     // about to call waker.wake()
    | Cancelling     // cancel, before its state update

  /** Where `JoinHandle::poll` is; `w` is the waker it was called with. */
  datatype JoinPc =
    | Resting
    | Locking(w: nat, again: bool)
    | Taking(w: nat, again: bool)
    | Dropping(w: nat, again: bool, out: Option<Outcome>)
    | Registering(w: nat)

  datatype Holder = Nobody | Thread(t: nat) | Joiner

  /**
   Auxiliary: `owner` (the thread that won IDLE -> RUNNING and has yet to make its final state
   update), `owed` (some wake has had no poll begin since), `polls`, `wakes`, `decided` (the
   results put into the slot), `delivered` (the results `take_output` gave out), `pending` (the
   waker of the last join poll, if that poll returned Pending), `woken` (the waker last
   registered has been woken).
   */
  datatype State = State(
    state: TaskState,
    slot: Slot,
    lock: Holder,
    linked: bool,        // in the global queue
    local: nat,          // entries in local queues
    waker: Option<nat>,  // AtomicWaker
    threads: seq<Pc>,
    joiner: JoinPc,
    owner: Option<nat>,
    owed: bool,
    polls: nat,
    wakes: nat,
    decided: seq<Outcome>,
    delivered: seq<Outcome>,
    pending: Option<nat>,
    woken: bool)

  /** The next atomic step of a thread. */
  datatype Action =
    | DoWake | DoPushLocal | DoGoGlobal | DoEnqueue | DoAnnounce | DoCancel | DoTryCancel
    | DoTakeLocal | DoEnter | DoOwnLock | DoOwnMatch | DoOwnPoll(result: PollResult) | DoOwnPublish
    | DoOwnYield | DoOwnRelease | DoFinLock | DoFinFill | DoFinStore | DoUnlock | DoWakeJoiner

  datatype JoinAction = Poll(w: nat) | Lock | Take | Drop | Register

  datatype Step = OfThread(t: nat, action: Action) | OfJoiner(join: JoinAction) | Transfer

  /** A freshly spawned task: thread 0 is about to schedule it. */
  function New(threads: nat): State
    requires threads > 0
  {
    State(IDLE, Future, Nobody, false, 0, None, [Waking] + seq(threads - 1, _ => Elsewhere),
          Resting, None, true, 0, 0, [], [], None, false)
  }

  predicate Enabled(s: State, step: Step) {
    match step
    case OfThread(t, a) =>
      t < |s.threads| &&
      var pc := s.threads[t];
      (match a
       case DoWake => pc.Elsewhere?
       case DoPushLocal => pc.Waking?
       case DoGoGlobal => pc.Waking?
       case DoEnqueue => pc.Enqueueing?
       case DoAnnounce => pc.Announcing?
       case DoCancel => pc.Elsewhere?
       case DoTryCancel => pc.Cancelling?
       case DoTakeLocal => pc.Elsewhere? && s.local > 0
       case DoEnter => pc.Entering?
       case DoOwnLock => pc.OwnLocking? && s.lock.Nobody?
       case DoOwnMatch => pc.OwnMatching?
       case DoOwnPoll(_) => pc.OwnPolling?
       case DoOwnPublish => pc.OwnPublishing?
       case DoOwnYield => pc.OwnYielding?
       case DoOwnRelease => pc.OwnReleasing?
       case DoFinLock => pc.FinLocking? && s.lock.Nobody?
       case DoFinFill => pc.FinFilling?
       case DoFinStore => pc.FinStoring?
       case DoUnlock => pc.Unlocking?
       case DoWakeJoiner => pc.JoinWaking?)
    case OfJoiner(a) =>
      (match a
       case Poll(_) => s.joiner.Resting?
       case Lock => s.joiner.Locking? && s.lock.Nobody?
       case Take => s.joiner.Taking?
       case Drop => s.joiner.Dropping?
       case Register => s.joiner.Registering?)
    case Transfer => s.linked
  }

  function At(s: State, t: nat, pc: Pc): State
    requires t < |s.threads|
  {
    s.(threads := s.threads[t := pc])
  }

  /** The slot goes from `Future` to `Return`. */
  function Decide(s: State, outcome: Outcome): State {
    s.(slot := Return(outcome), decided := s.decided + [outcome])
  }

  // One function per atomic step of `wake_by_ref`, `schedule_global` and `schedule_local` ...

  function Wake(s: State, t: nat): State requires t < |s.threads| {
    At(s, t, Waking).(wakes := s.wakes + 1, owed := true)
  }

  function PushLocal(s: State, t: nat): State requires t < |s.threads| {
    At(s, t, Elsewhere).(local := s.local + 1)
  }

  /** An entry already in the global queue is not added again. */
  function Enqueue(s: State, t: nat): State requires t < |s.threads| {
    At(s, t, Announcing).(linked := true)
  }

  // ... of `cancel` ...

  function TryCancel(s: State, t: nat): State requires t < |s.threads| {
    if s.state.COMPLETED? || s.state.CANCELLED? then At(s, t, Elsewhere)
    else At(s, t, Enqueueing).(state := CANCELLED)
  }

  // ... of `run` ...

  function TakeLocal(s: State, t: nat): State requires t < |s.threads| && s.local > 0 {
    At(s, t, Entering).(local := s.local - 1)
  }

  function Enter(s: State, t: nat): State requires t < |s.threads| {
    match s.state
    case IDLE => At(s, t, OwnLocking).(state := RUNNING, owner := Some(t))
    case RUNNING => At(s, t, Elsewhere).(state := NOTIFIED)
    case CANCELLED => At(s, t, FinLocking)
    case COMPLETED => At(s, t, Elsewhere)
    case NOTIFIED => At(s, t, Elsewhere)
  }

  function OwnLock(s: State, t: nat): State requires t < |s.threads| {
    At(s, t, OwnMatching).(lock := Thread(t))
  }

  function OwnMatch(s: State, t: nat): State requires t < |s.threads| {
    if s.slot.Future? then At(s, t, OwnPolling).(polls := s.polls + 1, owed := false)
    else At(s, t, OwnYielding)
  }

  function OwnPoll(s: State, t: nat, r: PollResult): State requires t < |s.threads| {
    match r
    case Pending => At(s, t, OwnYielding)
    case Finished(outcome) => At(Decide(s, outcome), t, OwnPublishing)
  }

  function OwnYield(s: State, t: nat): State requires t < |s.threads| {
    At(s, t, OwnReleasing).(lock := Nobody)
  }

  function OwnRelease(s: State, t: nat): State requires t < |s.threads| {
    var s := s.(owner := None);
    match s.state
    case RUNNING => At(s, t, Elsewhere).(state := IDLE)
    case NOTIFIED => At(s, t, Enqueueing).(state := IDLE)
    case CANCELLED => At(s, t, FinLocking)
    case IDLE => At(s, t, Elsewhere)
    case COMPLETED => At(s, t, Elsewhere)
  }

  // ... of `finish_cancellation` ...

  function FinLock(s: State, t: nat): State requires t < |s.threads| {
    At(s, t, FinFilling).(lock := Thread(t))
  }

  function FinFill(s: State, t: nat): State requires t < |s.threads| {
    At(if s.slot.Future? then Decide(s, Aborted) else s, t, FinStoring)
  }

  // ... and of publishing, shared by completion and cancellation.

  function OwnPublish(s: State, t: nat): State requires t < |s.threads| {
    At(s, t, Unlocking).(state := COMPLETED, owner := None)
  }

  function FinStore(s: State, t: nat): State requires t < |s.threads| {
    At(s, t, Unlocking).(state := COMPLETED)
  }

  function Unlock(s: State, t: nat): State requires t < |s.threads| {
    At(s, t, JoinWaking).(lock := Nobody)
  }

  function WakeJoiner(s: State, t: nat): State requires t < |s.threads| {
    At(s, t, Elsewhere).(waker := None, woken := s.woken || s.waker.Some?)
  }

  function ApplyThread(s: State, t: nat, a: Action): State
    requires t < |s.threads| && (a.DoTakeLocal? ==> s.local > 0)
  {
    match a
    case DoWake => Wake(s, t)
    case DoPushLocal => PushLocal(s, t)
    case DoGoGlobal => At(s, t, Enqueueing)
    case DoEnqueue => Enqueue(s, t)
    case DoAnnounce => At(s, t, Elsewhere)
    case DoCancel => At(s, t, Cancelling)
    case DoTryCancel => TryCancel(s, t)
    case DoTakeLocal => TakeLocal(s, t)
    case DoEnter => Enter(s, t)
    case DoOwnLock => OwnLock(s, t)
    case DoOwnMatch => OwnMatch(s, t)
    case DoOwnPoll(r) => OwnPoll(s, t, r)
    case DoOwnPublish => OwnPublish(s, t)
    case DoOwnYield => OwnYield(s, t)
    case DoOwnRelease => OwnRelease(s, t)
    case DoFinLock => FinLock(s, t)
    case DoFinFill => FinFill(s, t)
    case DoFinStore => FinStore(s, t)
    case DoUnlock => Unlock(s, t)
    case DoWakeJoiner => WakeJoiner(s, t)
  }

  // `JoinHandle::poll`

  function JoinTake(s: State): State requires s.joiner.Taking? {
    var Taking(w, again) := s.joiner;
    if s.slot.Return? then
      s.(joiner := Dropping(w, again, Some(s.slot.val)),
         slot := Return(Aborted), delivered := s.delivered + [s.slot.val])
    else s.(joiner := Dropping(w, again, None))
  }

  function JoinDrop(s: State): State requires s.joiner.Dropping? {
    var Dropping(w, again, out) := s.joiner;
    if out.Some? then s.(lock := Nobody, joiner := Resting)
    else if !again then s.(lock := Nobody, joiner := Registering(w))
    else s.(lock := Nobody, joiner := Resting, pending := Some(w))
  }

  function JoinRegister(s: State): State requires s.joiner.Registering? {
    s.(joiner := Locking(s.joiner.w, true), waker := Some(s.joiner.w), woken := false)
  }

  function ApplyJoin(s: State, a: JoinAction): State
    requires Enabled(s, OfJoiner(a))
  {
    match a
    case Poll(w) => s.(joiner := Locking(w, false), pending := None)
    case Lock => s.(joiner := Taking(s.joiner.w, s.joiner.again), lock := Joiner)
    case Take => JoinTake(s)
    case Drop => JoinDrop(s)
    case Register => JoinRegister(s)
  }

  function Apply(s: State, step: Step): State
    requires Enabled(s, step)
  {
    match step
    case OfThread(t, a) => ApplyThread(s, t, a)
    case OfJoiner(a) => ApplyJoin(s, a)
    case Transfer => s.(linked := false, local := s.local + 1)
  }

  // ---------------------------------------------------------------------------
  // Who is where
  // ---------------------------------------------------------------------------

  /** Between winning IDLE -> RUNNING and the final state update. */
  predicate Owns(pc: Pc) {
    pc.OwnLocking? || pc.OwnMatching? || pc.OwnPolling? || pc.OwnPublishing? || pc.OwnYielding? || pc.OwnReleasing?
  }

  predicate HoldsFuture(pc: Pc) {
    || pc.OwnMatching? || pc.OwnPolling? || pc.OwnPublishing? || pc.OwnYielding?
    || pc.FinFilling? || pc.FinStoring? || pc.Unlocking?
  }

  predicate Finishes(pc: Pc) {
    pc.FinLocking? || pc.FinFilling? || pc.FinStoring?
  }

  /** Has the result in the slot and has yet to wake the joiner. */
  predicate WillWakeJoiner(pc: Pc) {
    pc.OwnPublishing? || pc.FinStoring? || pc.Unlocking? || pc.JoinWaking?
  }

  /** On its way to start a poll or to mark the task NOTIFIED. */
  predicate CarriesWake(pc: Pc) {
    pc.Waking? || pc.Enqueueing? || pc.Entering? || pc.OwnLocking? || pc.OwnMatching?
  }

  predicate CarriesCancel(pc: Pc) {
    pc.Enqueueing? || pc.Entering? || Finishes(pc)
  }

  ghost predicate SomeCarriesWake(s: State) {
    exists t :: 0 <= t < |s.threads| && CarriesWake(s.threads[t])
  }

  ghost predicate SomeCarriesCancel(s: State) {
    exists t :: 0 <= t < |s.threads| && CarriesCancel(s.threads[t])
  }

  ghost predicate SomeWillWakeJoiner(s: State) {
    exists t :: 0 <= t < |s.threads| && WillWakeJoiner(s.threads[t])
  }

  // ---------------------------------------------------------------------------
  // The invariant
  // ---------------------------------------------------------------------------

  /** What thread `t` at `pc` relies on. */
  predicate ThreadInv(s: State, t: nat, pc: Pc) {
    && (HoldsFuture(pc) <==> s.lock == Thread(t))
    && (Owns(pc) <==> s.owner == Some(t))
    && (pc.OwnPolling? ==> s.slot.Future?)
    && (pc.OwnPublishing? || pc.FinStoring? ==> s.slot.Return?)
    && (Finishes(pc) ==> s.state.CANCELLED? || s.state.COMPLETED?)
    && (pc.Unlocking? || pc.JoinWaking? ==> s.state.COMPLETED?)
  }

  /** Only the short stretch between filling the slot and storing COMPLETED tells them apart. */
  predicate SlotInv(s: State) {
    && (s.state.COMPLETED? ==> s.slot.Return?)
    && (s.slot.Return? && !s.state.COMPLETED? ==>
          s.lock.Thread? && s.lock.t < |s.threads|
          && (s.threads[s.lock.t].OwnPublishing? || s.threads[s.lock.t].FinStoring?))
  }

  /** Locks and the poll owner. */
  ghost predicate CoreInv(s: State) {
    && (forall t :: 0 <= t < |s.threads| ==> ThreadInv(s, t, s.threads[t]))
    && (s.joiner.Taking? || s.joiner.Dropping? <==> s.lock.Joiner?)
    && (s.lock.Thread? ==> s.lock.t < |s.threads|)
    && (s.owner.Some? ==> s.owner.value < |s.threads|)
    && (s.state.IDLE? ==> s.owner.None?)
    && (s.state.RUNNING? || s.state.NOTIFIED? ==> s.owner.Some?)
    && SlotInv(s)
  }

  ghost predicate OutcomeInv(s: State) {
    && |s.decided| <= 1
    && (s.slot.Future? <==> s.decided == [])
    && (s.slot.Future? ==> s.delivered == [])
    && (s.slot.Return? ==> s.slot.val == if s.delivered == [] then s.decided[0] else Aborted)
    && (s.delivered != [] ==> s.decided != [] && s.delivered[0] == s.decided[0])
    && (forall k :: 1 <= k < |s.delivered| ==> s.delivered[k] == Aborted)
  }

  /** A cancellation and an unanswered wake always have somebody who carries them. */
  ghost predicate CarryInv(s: State) {
    && (s.state.CANCELLED? ==> s.linked || s.local > 0 || SomeCarriesCancel(s))
    && (s.owed && !s.state.COMPLETED? ==>
          s.linked || s.local > 0 || s.state.NOTIFIED? || s.state.CANCELLED? || SomeCarriesWake(s))
  }

  ghost predicate JoinInv(s: State) {
    && (s.woken ==> s.slot.Return?)
    && (s.joiner.Dropping? && s.joiner.out.None? ==> s.slot.Future?)
    && (s.pending.Some? ==> s.joiner.Resting?)
    && (s.pending.Some? && !s.woken ==> s.waker == s.pending)
    && (s.pending.Some? && !s.woken && s.slot.Return? ==> SomeWillWakeJoiner(s))
    && ((s.joiner.Locking? || s.joiner.Taking? || s.joiner.Dropping?) && s.joiner.again && !s.woken
        ==> s.waker == Some(s.joiner.w))
  }

  ghost predicate SafetyInv(s: State) {
    CoreInv(s) && OutcomeInv(s) && CarryInv(s) && JoinInv(s)
  }

  // ---------------------------------------------------------------------------
  // Every step keeps the invariant
  // ---------------------------------------------------------------------------

  predicate Is(s: State, t: nat, pc: Pc) {
    t < |s.threads| && s.threads[t] == pc
  }

  /** Changing one thread moves an existential only through that thread. */
  lemma Moves(s: State, s': State, t: nat)
    requires t < |s.threads| == |s'.threads|
    requires forall u :: 0 <= u < |s.threads| && u != t ==> s'.threads[u] == s.threads[u]
    ensures SomeCarriesCancel(s) && !CarriesCancel(s.threads[t]) ==> SomeCarriesCancel(s')
    ensures CarriesCancel(s'.threads[t]) ==> SomeCarriesCancel(s')
    ensures SomeCarriesWake(s) && !CarriesWake(s.threads[t]) ==> SomeCarriesWake(s')
    ensures CarriesWake(s'.threads[t]) ==> SomeCarriesWake(s')
    ensures SomeWillWakeJoiner(s) && !WillWakeJoiner(s.threads[t]) ==> SomeWillWakeJoiner(s')
    ensures WillWakeJoiner(s'.threads[t]) ==> SomeWillWakeJoiner(s')
  {
    if u :| 0 <= u < |s.threads| && CarriesCancel(s.threads[u]) {
      assert u != t ==> CarriesCancel(s'.threads[u]);
    }
    if u :| 0 <= u < |s.threads| && CarriesWake(s.threads[u]) {
      assert u != t ==> CarriesWake(s'.threads[u]);
    }
    if u :| 0 <= u < |s.threads| && WillWakeJoiner(s.threads[u]) {
      assert u != t ==> WillWakeJoiner(s'.threads[u]);
    }
  }

  lemma WakeKeepsInv(s: State, t: nat)
    requires SafetyInv(s) && Is(s, t, Elsewhere)
    ensures SafetyInv(Wake(s, t))
  {
    Moves(s, Wake(s, t), t);
  }

  lemma PushLocalKeepsInv(s: State, t: nat)
    requires SafetyInv(s) && Is(s, t, Waking)
    ensures SafetyInv(PushLocal(s, t))
  {
    Moves(s, PushLocal(s, t), t);
  }

  lemma GoGlobalKeepsInv(s: State, t: nat)
    requires SafetyInv(s) && Is(s, t, Waking)
    ensures SafetyInv(At(s, t, Enqueueing))
  {
    Moves(s, At(s, t, Enqueueing), t);
  }

  lemma EnqueueKeepsInv(s: State, t: nat)
    requires SafetyInv(s) && Is(s, t, Enqueueing)
    ensures SafetyInv(Enqueue(s, t))
  {
    Moves(s, Enqueue(s, t), t);
  }

  lemma CancelKeepsInv(s: State, t: nat)
    requires SafetyInv(s) && Is(s, t, Elsewhere)
    ensures SafetyInv(At(s, t, Cancelling))
  {
    Moves(s, At(s, t, Cancelling), t);
  }

  lemma TakeLocalKeepsInv(s: State, t: nat)
    requires SafetyInv(s) && Is(s, t, Elsewhere) && s.local > 0
    ensures SafetyInv(TakeLocal(s, t))
  {
    Moves(s, TakeLocal(s, t), t);
  }

  lemma OwnLockKeepsInv(s: State, t: nat)
    requires SafetyInv(s) && Is(s, t, OwnLocking) && s.lock.Nobody?
    ensures SafetyInv(OwnLock(s, t))
  {
    Moves(s, OwnLock(s, t), t);
  }

  lemma OwnMatchKeepsInv(s: State, t: nat)
    requires SafetyInv(s) && Is(s, t, OwnMatching)
    ensures SafetyInv(OwnMatch(s, t))
  {
    Moves(s, OwnMatch(s, t), t);
  }

  lemma OwnPublishKeepsInv(s: State, t: nat)
    requires SafetyInv(s) && Is(s, t, OwnPublishing)
    ensures SafetyInv(OwnPublish(s, t))
  {
    Moves(s, OwnPublish(s, t), t);
  }

  lemma OwnYieldKeepsInv(s: State, t: nat)
    requires SafetyInv(s) && Is(s, t, OwnYielding)
    ensures SafetyInv(OwnYield(s, t))
  {
    Moves(s, OwnYield(s, t), t);
  }

  lemma FinLockKeepsInv(s: State, t: nat)
    requires SafetyInv(s) && Is(s, t, FinLocking) && s.lock.Nobody?
    ensures SafetyInv(FinLock(s, t))
  {
    Moves(s, FinLock(s, t), t);
  }

  lemma FinFillKeepsInv(s: State, t: nat)
    requires SafetyInv(s) && Is(s, t, FinFilling)
    ensures SafetyInv(FinFill(s, t))
  {
    Moves(s, FinFill(s, t), t);
  }

  lemma FinStoreKeepsInv(s: State, t: nat)
    requires SafetyInv(s) && Is(s, t, FinStoring)
    ensures SafetyInv(FinStore(s, t))
  {
    Moves(s, FinStore(s, t), t);
  }

  lemma UnlockKeepsInv(s: State, t: nat)
    requires SafetyInv(s) && Is(s, t, Unlocking)
    ensures SafetyInv(Unlock(s, t))
  {
    Moves(s, Unlock(s, t), t);
  }

  lemma WakeJoinerKeepsInv(s: State, t: nat)
    requires SafetyInv(s) && Is(s, t, JoinWaking)
    ensures SafetyInv(WakeJoiner(s, t))
  {
    Moves(s, WakeJoiner(s, t), t);
  }

  lemma OwnPollKeepsInv(s: State, t: nat, r: PollResult)
    requires SafetyInv(s) && Is(s, t, OwnPolling)
    ensures SafetyInv(OwnPoll(s, t, r))
  {
    Moves(s, OwnPoll(s, t, r), t);
  }

  /** A thread that has nothing left to carry goes away. */
  lemma StepAsideKeepsInv(s: State, t: nat)
    requires SafetyInv(s)
    requires || Is(s, t, Announcing) || Is(s, t, Cancelling)
             || (Is(s, t, Entering) && (s.state.COMPLETED? || s.state.NOTIFIED?))
    ensures SafetyInv(At(s, t, Elsewhere))
  {
    Moves(s, At(s, t, Elsewhere), t);
  }

  lemma CancelWinsKeepsInv(s: State, t: nat)
    requires SafetyInv(s) && Is(s, t, Cancelling) && !s.state.COMPLETED? && !s.state.CANCELLED?
    ensures SafetyInv(At(s, t, Enqueueing).(state := CANCELLED))
  {
    Moves(s, At(s, t, Enqueueing).(state := CANCELLED), t);
  }

  lemma EnterOwnsKeepsInv(s: State, t: nat)
    requires SafetyInv(s) && Is(s, t, Entering) && s.state.IDLE?
    ensures SafetyInv(At(s, t, OwnLocking).(state := RUNNING, owner := Some(t)))
  {
    Moves(s, At(s, t, OwnLocking).(state := RUNNING, owner := Some(t)), t);
  }

  lemma EnterNotifiesKeepsInv(s: State, t: nat)
    requires SafetyInv(s) && Is(s, t, Entering) && s.state.RUNNING?
    ensures SafetyInv(At(s, t, Elsewhere).(state := NOTIFIED))
  {
    Moves(s, At(s, t, Elsewhere).(state := NOTIFIED), t);
  }

  lemma EnterFinishesKeepsInv(s: State, t: nat)
    requires SafetyInv(s) && Is(s, t, Entering) && s.state.CANCELLED?
    ensures SafetyInv(At(s, t, FinLocking))
  {
    Moves(s, At(s, t, FinLocking), t);
  }

  lemma ReleaseIdleKeepsInv(s: State, t: nat)
    requires SafetyInv(s) && Is(s, t, OwnReleasing) && s.state.RUNNING?
    ensures SafetyInv(At(s, t, Elsewhere).(state := IDLE, owner := None))
  {
    Moves(s, At(s, t, Elsewhere).(state := IDLE, owner := None), t);
  }

  lemma ReleaseNotifiedKeepsInv(s: State, t: nat)
    requires SafetyInv(s) && Is(s, t, OwnReleasing) && s.state.NOTIFIED?
    ensures SafetyInv(At(s, t, Enqueueing).(state := IDLE, owner := None))
  {
    Moves(s, At(s, t, Enqueueing).(state := IDLE, owner := None), t);
  }

  lemma ReleaseCancelledKeepsInv(s: State, t: nat)
    requires SafetyInv(s) && Is(s, t, OwnReleasing) && s.state.CANCELLED?
    ensures SafetyInv(At(s, t, FinLocking).(owner := None))
  {
    Moves(s, At(s, t, FinLocking).(owner := None), t);
  }

  lemma ReleaseCompletedKeepsInv(s: State, t: nat)
    requires SafetyInv(s) && Is(s, t, OwnReleasing) && s.state.COMPLETED?
    ensures SafetyInv(At(s, t, Elsewhere).(owner := None))
  {
    Moves(s, At(s, t, Elsewhere).(owner := None), t);
  }

  lemma JoinPollKeepsInv(s: State, w: nat)
    requires SafetyInv(s) && s.joiner.Resting?
    ensures SafetyInv(s.(joiner := Locking(w, false), pending := None))
  {
  }

  lemma JoinLockKeepsInv(s: State)
    requires SafetyInv(s) && s.joiner.Locking? && s.lock.Nobody?
    ensures SafetyInv(s.(joiner := Taking(s.joiner.w, s.joiner.again), lock := Joiner))
  {
    var s' := s.(joiner := Taking(s.joiner.w, s.joiner.again), lock := Joiner);
    assert SomeCarriesCancel(s) ==> SomeCarriesCancel(s');
    assert SomeCarriesWake(s) ==> SomeCarriesWake(s');
  }

  lemma JoinTakeKeepsInv(s: State)
    requires SafetyInv(s) && s.joiner.Taking?
    ensures SafetyInv(JoinTake(s))
  {
    assert SomeCarriesCancel(s) ==> SomeCarriesCancel(JoinTake(s));
    assert SomeCarriesWake(s) ==> SomeCarriesWake(JoinTake(s));
  }

  lemma JoinDropReadyKeepsInv(s: State)
    requires SafetyInv(s) && s.joiner.Dropping? && s.joiner.out.Some?
    ensures SafetyInv(s.(lock := Nobody, joiner := Resting))
  {
    var s' := s.(lock := Nobody, joiner := Resting);
    assert SomeCarriesCancel(s) ==> SomeCarriesCancel(s');
    assert SomeCarriesWake(s) ==> SomeCarriesWake(s');
  }

  lemma JoinDropRetryKeepsInv(s: State)
    requires SafetyInv(s) && s.joiner.Dropping? && s.joiner.out.None? && !s.joiner.again
    ensures SafetyInv(s.(lock := Nobody, joiner := Registering(s.joiner.w)))
  {
    var s' := s.(lock := Nobody, joiner := Registering(s.joiner.w));
    assert SomeCarriesCancel(s) ==> SomeCarriesCancel(s');
    assert SomeCarriesWake(s) ==> SomeCarriesWake(s');
  }

  lemma JoinDropPendingKeepsInv(s: State)
    requires SafetyInv(s) && s.joiner.Dropping? && s.joiner.out.None? && s.joiner.again
    ensures SafetyInv(s.(lock := Nobody, joiner := Resting, pending := Some(s.joiner.w)))
  {
    var s' := s.(lock := Nobody, joiner := Resting, pending := Some(s.joiner.w));
    assert SomeCarriesCancel(s) ==> SomeCarriesCancel(s');
    assert SomeCarriesWake(s) ==> SomeCarriesWake(s');
  }

  lemma JoinDropKeepsInv(s: State)
    requires SafetyInv(s) && s.joiner.Dropping?
    ensures SafetyInv(JoinDrop(s))
  {
    if s.joiner.out.Some? {
      JoinDropReadyKeepsInv(s);
    } else if !s.joiner.again {
      JoinDropRetryKeepsInv(s);
    } else {
      JoinDropPendingKeepsInv(s);
    }
  }

  lemma JoinRegisterKeepsInv(s: State)
    requires SafetyInv(s) && s.joiner.Registering?
    ensures SafetyInv(JoinRegister(s))
  {
    assert SomeCarriesCancel(s) ==> SomeCarriesCancel(JoinRegister(s));
    assert SomeCarriesWake(s) ==> SomeCarriesWake(JoinRegister(s));
  }

  lemma TransferKeepsInv(s: State)
    requires SafetyInv(s) && s.linked
    ensures SafetyInv(s.(linked := false, local := s.local + 1))
  {
    assert SomeWillWakeJoiner(s) ==> SomeWillWakeJoiner(s.(linked := false, local := s.local + 1));
  }

  lemma NewInv(threads: nat)
    requires threads > 0
    ensures SafetyInv(New(threads))
  {
    assert CarriesWake(New(threads).threads[0]);
  }

  lemma ThreadKeepsInv(s: State, t: nat, a: Action)
    requires SafetyInv(s) && Enabled(s, OfThread(t, a))
    ensures SafetyInv(Apply(s, OfThread(t, a)))
  {
    match a
    case DoWake => WakeKeepsInv(s, t);
    case DoPushLocal => PushLocalKeepsInv(s, t);
    case DoGoGlobal => GoGlobalKeepsInv(s, t);
    case DoEnqueue => EnqueueKeepsInv(s, t);
    case DoAnnounce => StepAsideKeepsInv(s, t);
    case DoCancel => CancelKeepsInv(s, t);
    case DoTryCancel =>
      if s.state.COMPLETED? || s.state.CANCELLED? {
        StepAsideKeepsInv(s, t);
      } else {
        CancelWinsKeepsInv(s, t);
      }
    case DoTakeLocal => TakeLocalKeepsInv(s, t);
    case DoEnter => EnterKeepsInv(s, t);
    case DoOwnLock => OwnLockKeepsInv(s, t);
    case DoOwnMatch => OwnMatchKeepsInv(s, t);
    case DoOwnPoll(r) => OwnPollKeepsInv(s, t, r);
    case DoOwnPublish => OwnPublishKeepsInv(s, t);
    case DoOwnYield => OwnYieldKeepsInv(s, t);
    case DoOwnRelease => OwnReleaseKeepsInv(s, t);
    case DoFinLock => FinLockKeepsInv(s, t);
    case DoFinFill => FinFillKeepsInv(s, t);
    case DoFinStore => FinStoreKeepsInv(s, t);
    case DoUnlock => UnlockKeepsInv(s, t);
    case DoWakeJoiner => WakeJoinerKeepsInv(s, t);
  }

  lemma EnterKeepsInv(s: State, t: nat)
    requires SafetyInv(s) && Is(s, t, Entering)
    ensures SafetyInv(Enter(s, t))
  {
    match s.state
    case IDLE => EnterOwnsKeepsInv(s, t);
    case RUNNING => EnterNotifiesKeepsInv(s, t);
    case CANCELLED => EnterFinishesKeepsInv(s, t);
    case COMPLETED => StepAsideKeepsInv(s, t);
    case NOTIFIED => StepAsideKeepsInv(s, t);
  }

  lemma OwnReleaseKeepsInv(s: State, t: nat)
    requires SafetyInv(s) && Is(s, t, OwnReleasing)
    ensures SafetyInv(OwnRelease(s, t))
  {
    if s.state.RUNNING? {
      ReleaseIdleKeepsInv(s, t);
    } else if s.state.NOTIFIED? {
      ReleaseNotifiedKeepsInv(s, t);
    } else if s.state.CANCELLED? {
      ReleaseCancelledKeepsInv(s, t);
    } else {
      assert ThreadInv(s, t, s.threads[t]);
      ReleaseCompletedKeepsInv(s, t);
    }
  }

  lemma StepKeepsInv(s: State, step: Step)
    requires SafetyInv(s) && Enabled(s, step)
    ensures SafetyInv(Apply(s, step))
  {
    match step
    case OfThread(t, a) => ThreadKeepsInv(s, t, a);
    case Transfer => TransferKeepsInv(s);
    case OfJoiner(a) =>
      match a
      case Poll(w) => JoinPollKeepsInv(s, w);
      case Lock => JoinLockKeepsInv(s);
      case Take => JoinTakeKeepsInv(s);
      case Drop => JoinDropKeepsInv(s);
      case Register => JoinRegisterKeepsInv(s);
  }

  // ---------------------------------------------------------------------------
  // Counting polls against wakes
  // ---------------------------------------------------------------------------

  function Carried(pc: Pc): nat { B(CarriesWake(pc)) }

  predicate Live(state: TaskState) {
    state.IDLE? || state.RUNNING? || state.NOTIFIED?
  }

  predicate Unpolled(pc: Pc) {
    pc.OwnLocking? || pc.OwnMatching?
  }

  /** Each poll uses up a wake, or the spawn; NOTIFIED only remembers one that it absorbed. */
  predicate CountInv(s: State) {
    && (s.owner.Some? ==> s.owner.value < |s.threads|)
    && s.polls + (if s.owner.Some? then B(Unpolled(s.threads[s.owner.value])) else 0) <= 1 + s.wakes
    && (Live(s.state) ==>
          s.polls + Tokens(s) <= 1 + s.wakes)
  }

  /** Tokens in circulation: queue entries, threads on their way, an absorbed notification. */
  function Tokens(s: State): nat {
    B(s.linked) + s.local + Sum(s.threads, Carried) + B(s.state.NOTIFIED?)
  }

  /** A step of thread `t` keeps the count if it makes no more tokens and polls than wakes. */
  lemma CountMove(s: State, s': State, t: nat)
    requires CountInv(s) && t < |s.threads| == |s'.threads| && s'.threads == s.threads[t := s'.threads[t]]
    requires s'.owner.Some? ==> s'.owner.value < |s.threads|
    requires s'.polls + (if s'.owner.Some? then B(Unpolled(s'.threads[s'.owner.value])) else 0) <= 1 + s'.wakes
    requires Live(s'.state) ==>
      Live(s.state) &&
      s'.polls + B(s'.linked) + s'.local + B(CarriesWake(s'.threads[t])) + B(s'.state.NOTIFIED?) + s.wakes
      <= s.polls + B(s.linked) + s.local + B(CarriesWake(s.threads[t])) + B(s.state.NOTIFIED?) + s'.wakes
    ensures CountInv(s')
  {
    SumUpdate(s.threads, Carried, t, s'.threads[t]);
  }

  lemma CountTryCancel(s: State, t: nat)
    requires CountInv(s) && Is(s, t, Cancelling) && ThreadInv(s, t, s.threads[t])
    requires s.state.IDLE? ==> s.owner.None?
    ensures CountInv(TryCancel(s, t))
  {
    SumUpdate(s.threads, Carried, t, Elsewhere);
    CountMove(s, TryCancel(s, t), t);
  }

  lemma CountEnter(s: State, t: nat)
    requires CountInv(s) && Is(s, t, Entering) && ThreadInv(s, t, s.threads[t])
    requires s.state.IDLE? ==> s.owner.None?
    ensures CountInv(Enter(s, t))
  {
    SumUpdate(s.threads, Carried, t, Elsewhere);
    CountMove(s, Enter(s, t), t);
  }

  lemma CountOwnMatch(s: State, t: nat)
    requires CountInv(s) && Is(s, t, OwnMatching) && ThreadInv(s, t, s.threads[t])
    requires s.state.IDLE? ==> s.owner.None?
    ensures CountInv(OwnMatch(s, t))
  {
    SumUpdate(s.threads, Carried, t, Elsewhere);
    CountMove(s, OwnMatch(s, t), t);
  }

  lemma CountOwnRelease(s: State, t: nat)
    requires CountInv(s) && Is(s, t, OwnReleasing) && ThreadInv(s, t, s.threads[t])
    requires s.state.IDLE? ==> s.owner.None?
    ensures CountInv(OwnRelease(s, t))
  {
    SumUpdate(s.threads, Carried, t, Elsewhere);
    CountMove(s, OwnRelease(s, t), t);
  }

  lemma CountFinFill(s: State, t: nat)
    requires CountInv(s) && Is(s, t, FinFilling) && ThreadInv(s, t, s.threads[t])
    requires s.state.IDLE? ==> s.owner.None?
    ensures CountInv(FinFill(s, t))
  {
    SumUpdate(s.threads, Carried, t, Elsewhere);
    CountMove(s, FinFill(s, t), t);
  }

  /** Steps that neither update the state word by a rule nor look at the slot. */
  predicate Straight(a: Action) {
    !a.DoTryCancel? && !a.DoEnter? && !a.DoOwnMatch? && !a.DoOwnRelease? && !a.DoFinFill?
  }

  predicate Scheduling(a: Action) {
    a.DoWake? || a.DoPushLocal? || a.DoGoGlobal? || a.DoEnqueue? || a.DoAnnounce? || a.DoCancel? || a.DoTakeLocal?
  }

  lemma CountScheduling(s: State, t: nat, a: Action)
    requires CountInv(s) && Enabled(s, OfThread(t, a)) && ThreadInv(s, t, s.threads[t]) && Scheduling(a)
    ensures CountInv(ApplyThread(s, t, a))
  {
    CountMove(s, ApplyThread(s, t, a), t);
  }

  /** Taking and dropping the future mutex, and waking the joiner. */
  predicate MutexAction(a: Action) {
    a.DoOwnLock? || a.DoOwnYield? || a.DoFinLock? || a.DoUnlock? || a.DoWakeJoiner?
  }

  lemma CountMutex(s: State, t: nat, a: Action)
    requires CountInv(s) && Enabled(s, OfThread(t, a)) && ThreadInv(s, t, s.threads[t]) && MutexAction(a)
    ensures CountInv(ApplyThread(s, t, a))
  {
    CountMove(s, ApplyThread(s, t, a), t);
  }

  lemma CountPublishing(s: State, t: nat, a: Action)
    requires CountInv(s) && Enabled(s, OfThread(t, a)) && ThreadInv(s, t, s.threads[t])
    requires a.DoOwnPoll? || a.DoOwnPublish? || a.DoFinStore?
    ensures CountInv(ApplyThread(s, t, a))
  {
    CountMove(s, ApplyThread(s, t, a), t);
  }

  lemma CountStraight(s: State, t: nat, a: Action)
    requires CountInv(s) && Enabled(s, OfThread(t, a)) && ThreadInv(s, t, s.threads[t])
    requires Straight(a) && !Scheduling(a)
    ensures CountInv(ApplyThread(s, t, a))
  {
    if MutexAction(a) {
      CountMutex(s, t, a);
    } else {
      CountPublishing(s, t, a);
    }
  }

  lemma CountThread(s: State, t: nat, a: Action)
    requires CountInv(s) && Enabled(s, OfThread(t, a)) && ThreadInv(s, t, s.threads[t])
    requires s.state.IDLE? ==> s.owner.None?
    ensures CountInv(ApplyThread(s, t, a))
  {
    if a.DoTryCancel? {
      CountTryCancel(s, t);
    } else if a.DoEnter? {
      CountEnter(s, t);
    } else if a.DoOwnMatch? {
      CountOwnMatch(s, t);
    } else if a.DoOwnRelease? {
      CountOwnRelease(s, t);
    } else if a.DoFinFill? {
      CountFinFill(s, t);
    } else if Scheduling(a) {
      CountScheduling(s, t, a);
    } else {
      CountStraight(s, t, a);
    }
  }

  /** The count does not depend on the slot, the locks or the joiner. */
  lemma CountSame(s: State, s': State)
    requires CountInv(s) && s'.threads == s.threads && s'.owner == s.owner && s'.state == s.state
    requires s'.polls == s.polls && s'.wakes == s.wakes && s'.linked == s.linked && s'.local == s.local
    ensures CountInv(s')
  {
  }

  lemma CountJoiner(s: State, a: JoinAction)
    requires CountInv(s) && Enabled(s, OfJoiner(a))
    ensures CountInv(ApplyJoin(s, a))
  {
    CountSame(s, ApplyJoin(s, a));
  }

  lemma CountElsewhere(s: State, step: Step)
    requires CountInv(s) && Enabled(s, step) && !step.OfThread?
    ensures CountInv(Apply(s, step))
  {
    if step.OfJoiner? {
      CountJoiner(s, step.join);
    }
  }

  lemma CountNew(threads: nat)
    requires threads > 0
    ensures CountInv(New(threads))
  {
    SumSpawned(New(threads).threads);
  }

  lemma {:induction false} SumSpawned(threads: seq<Pc>)
    requires forall t :: 1 <= t < |threads| ==> threads[t].Elsewhere?
    ensures Sum(threads, Carried) <= 1
  {
    if |threads| > 1 {
      SumSpawned(Init(threads));
    } else if |threads| == 1 {
      assert Init(threads) == [];
    }
  }

  // ---------------------------------------------------------------------------
  // Whole runs
  // ---------------------------------------------------------------------------

  ghost predicate Inv(s: State) {
    SafetyInv(s) && CountInv(s)
  }

  lemma InvStep(s: State, step: Step)
    requires Inv(s) && Enabled(s, step)
    ensures Inv(Apply(s, step))
  {
    StepKeepsInv(s, step);
    if step.OfThread? {
      CountThread(s, step.t, step.action);
    } else {
      CountElsewhere(s, step);
    }
  }

  predicate IsRun(s: State, steps: seq<Step>)
    decreases |steps|, 0
  {
    steps == [] || (IsRun(s, Init(steps)) && Enabled(After(s, Init(steps)), Last(steps)))
  }

  function After(s: State, steps: seq<Step>): State
    requires IsRun(s, steps)
    decreases |steps|, 1
  {
    if steps == [] then s else Apply(After(s, Init(steps)), Last(steps))
  }

  lemma {:induction false} RunInv(s: State, steps: seq<Step>)
    requires Inv(s) && IsRun(s, steps)
    ensures Inv(After(s, steps))
  {
    if steps != [] {
      RunInv(s, Init(steps));
      InvStep(After(s, Init(steps)), Last(steps));
    }
  }

  ghost predicate Reachable(threads: nat, s: State)
    requires threads > 0
  {
    exists steps :: IsRun(New(threads), steps) && s == After(New(threads), steps)
  }

  lemma ReachableInv(threads: nat, s: State)
    requires threads > 0 && Reachable(threads, s)
    ensures Inv(s)
  {
    var steps :| IsRun(New(threads), steps) && s == After(New(threads), steps);
    NewInv(threads);
    CountNew(threads);
    RunInv(New(threads), steps);
  }

  // ---------------------------------------------------------------------------
  // What holds in every reachable state
  // ---------------------------------------------------------------------------

  /** One poll owner at a time, and the user's future is polled only while nothing is decided. */
  lemma OnePollOwner(threads: nat, s: State, t: nat, u: nat)
    requires threads > 0 && Reachable(threads, s) && t < |s.threads| && u < |s.threads|
    ensures Owns(s.threads[t]) && Owns(s.threads[u]) ==> t == u
    ensures s.threads[t].OwnPolling? ==> s.decided == [] && s.lock == Thread(t)
  {
    ReachableInv(threads, s);
  }

  /** Polls never outnumber the wakes plus the spawn. */
  lemma PollsBoundedByWakes(threads: nat, s: State)
    requires threads > 0 && Reachable(threads, s)
    ensures s.polls <= 1 + s.wakes
  {
    ReachableInv(threads, s);
  }

  /** Whoever finds the future mutex free sees a result exactly when the state says so. */
  lemma ResultMatchesState(threads: nat, s: State)
    requires threads > 0 && Reachable(threads, s) && !s.lock.Thread?
    ensures s.slot.Return? <==> s.state.COMPLETED?
  {
    ReachableInv(threads, s);
  }

  /** The first `take_output` that finds a result gets the decided one, every later one Aborted. */
  lemma OutcomeDeliveredOnce(threads: nat, s: State)
    requires threads > 0 && Reachable(threads, s)
    ensures |s.decided| <= 1
    ensures s.delivered != [] ==> s.decided == [s.delivered[0]]
    ensures forall k :: 1 <= k < |s.delivered| ==> s.delivered[k] == Aborted
  {
    ReachableInv(threads, s);
  }

  lemma WakeIsCarried(threads: nat, s: State)
    requires threads > 0 && Reachable(threads, s) && s.owed && !s.state.COMPLETED?
    ensures s.linked || s.local > 0 || s.state.NOTIFIED? || s.state.CANCELLED? || SomeCarriesWake(s)
    ensures s.state.NOTIFIED? ==> exists t :: 0 <= t < |s.threads| && Owns(s.threads[t])
  {
    ReachableInv(threads, s);
    if s.state.NOTIFIED? {
      assert Owns(s.threads[s.owner.value]);
    }
  }

  lemma CancellationIsCarried(threads: nat, s: State)
    requires threads > 0 && Reachable(threads, s) && s.state.CANCELLED?
    ensures s.linked || s.local > 0 || SomeCarriesCancel(s)
  {
    ReachableInv(threads, s);
  }

  /** A joiner told Pending is woken, or its waker is registered and someone will use it. */
  lemma JoinWakeIsCarried(threads: nat, s: State)
    requires threads > 0 && Reachable(threads, s) && s.pending.Some? && s.slot.Return?
    ensures s.woken || (s.waker == s.pending && SomeWillWakeJoiner(s))
  {
    ReachableInv(threads, s);
  }

  /** What is decided stays decided, what is delivered stays delivered, COMPLETED is final. */
  lemma {:induction false} DecisionStands(s: State, steps: seq<Step>)
    requires Inv(s) && IsRun(s, steps)
    ensures Stands(s, After(s, steps))
  {
    if steps != [] {
      DecisionStands(s, Init(steps));
      RunInv(s, Init(steps));
      DecisionStep(After(s, Init(steps)), Last(steps));
    }
  }

  /** The history of results from `s` to `s'` only grows, and COMPLETED stays. */
  predicate Stands(s: State, s': State) {
    && (s.decided != [] ==> s'.decided == s.decided)
    && s.delivered <= s'.delivered
    && (s.state.COMPLETED? ==> s'.state.COMPLETED?)
  }

  lemma ScheduleStands(s: State, t: nat, a: Action)
    requires Enabled(s, OfThread(t, a)) && Scheduling(a)
    ensures Stands(s, ApplyThread(s, t, a))
  {
  }

  lemma StraightStands(s: State, t: nat, a: Action)
    requires OutcomeInv(s) && Enabled(s, OfThread(t, a)) && ThreadInv(s, t, s.threads[t])
    requires Straight(a) && !Scheduling(a)
    ensures Stands(s, ApplyThread(s, t, a))
  {
    if a.DoOwnPoll? {
      assert Stands(s, OwnPoll(s, t, a.result));
    }
  }

  lemma ThreadStands(s: State, t: nat, a: Action)
    requires OutcomeInv(s) && Enabled(s, OfThread(t, a)) && ThreadInv(s, t, s.threads[t])
    ensures Stands(s, ApplyThread(s, t, a))
  {
    if Scheduling(a) {
      ScheduleStands(s, t, a);
    } else if Straight(a) {
      StraightStands(s, t, a);
    } else if a.DoTryCancel? {
      assert Stands(s, TryCancel(s, t));
    } else if a.DoEnter? {
      assert Stands(s, Enter(s, t));
    } else if a.DoOwnRelease? {
      assert Stands(s, OwnRelease(s, t));
    } else if a.DoOwnMatch? {
      assert Stands(s, OwnMatch(s, t));
    } else {
      assert Stands(s, FinFill(s, t));
    }
  }

  lemma DecisionStep(s: State, step: Step)
    requires OutcomeInv(s) && Enabled(s, step)
    requires step.OfThread? ==> ThreadInv(s, step.t, s.threads[step.t])
    ensures Stands(s, Apply(s, step))
  {
    match step
    case OfThread(t, a) => ThreadStands(s, t, a);
    case OfJoiner(a) => assert Stands(s, ApplyJoin(s, a));
    case Transfer =>
  }

  // ---------------------------------------------------------------------------
  // Left alone, the task always comes to rest with everything answered
  // ---------------------------------------------------------------------------

  /** A step that no outsider has to start: not a new wake, cancel or join poll. */
  predicate Internal(step: Step) {
    match step
    case OfThread(_, a) => !a.DoWake? && !a.DoCancel?
    case OfJoiner(a) => !a.Poll?
    case Transfer => true
  }

  function Cost(pc: Pc): nat {
    match pc
    case Elsewhere => 0
    case JoinWaking => 1
    case Unlocking => 2
    case FinStoring => 3
    case FinFilling => 4
    case FinLocking => 5
    case OwnReleasing => 6
    case OwnYielding => 7
    case OwnPublishing => 7
    case OwnPolling => 8
    case OwnMatching => 9
    case OwnLocking => 10
    case Entering => 11
    case Announcing => 1
    case Enqueueing => 15
    case Waking => 16
    case Cancelling => 16
  }

  function JoinCost(pc: JoinPc): nat {
    match pc
    case Resting => 0
    case Dropping(_, again, _) => if again then 1 else 5
    case Taking(_, again) => if again then 2 else 6
    case Locking(_, again) => if again then 3 else 7
    case Registering(_) => 4
  }

  /** An upper bound on the internal steps still possible. */
  function Energy(s: State): nat {
    Sum(s.threads, Cost) + JoinCost(s.joiner) + 13 * B(s.linked) + 12 * s.local + 10 * B(s.state.NOTIFIED?)
  }

  /** What a step of thread `t` does to the energy, thread sum aside. */
  lemma EnergyMove(s: State, s': State, t: nat)
    requires t < |s.threads| == |s'.threads| && s'.threads == s.threads[t := s'.threads[t]]
    requires s'.joiner == s.joiner
    requires Cost(s'.threads[t]) + 13 * B(s'.linked) + 12 * s'.local + 10 * B(s'.state.NOTIFIED?)
           < Cost(s.threads[t]) + 13 * B(s.linked) + 12 * s.local + 10 * B(s.state.NOTIFIED?)
    ensures Energy(s') < Energy(s)
  {
    SumUpdate(s.threads, Cost, t, s'.threads[t]);
  }

  lemma TryCancelUsesEnergy(s: State, t: nat)
    requires Is(s, t, Cancelling)
    ensures Energy(TryCancel(s, t)) < Energy(s)
  {
    EnergyMove(s, TryCancel(s, t), t);
  }

  lemma EnterUsesEnergy(s: State, t: nat)
    requires Is(s, t, Entering)
    ensures Energy(Enter(s, t)) < Energy(s)
  {
    EnergyMove(s, Enter(s, t), t);
  }

  lemma OwnMatchUsesEnergy(s: State, t: nat)
    requires Is(s, t, OwnMatching)
    ensures Energy(OwnMatch(s, t)) < Energy(s)
  {
    EnergyMove(s, OwnMatch(s, t), t);
  }

  lemma OwnReleaseUsesEnergy(s: State, t: nat)
    requires Is(s, t, OwnReleasing)
    ensures Energy(OwnRelease(s, t)) < Energy(s)
  {
    EnergyMove(s, OwnRelease(s, t), t);
  }

  lemma FinFillUsesEnergy(s: State, t: nat)
    requires Is(s, t, FinFilling)
    ensures Energy(FinFill(s, t)) < Energy(s)
  {
    EnergyMove(s, FinFill(s, t), t);
  }

  lemma SchedulingUsesEnergy(s: State, t: nat, a: Action)
    requires Enabled(s, OfThread(t, a)) && Scheduling(a) && !a.DoWake? && !a.DoCancel?
    ensures Energy(ApplyThread(s, t, a)) < Energy(s)
  {
    EnergyMove(s, ApplyThread(s, t, a), t);
  }

  lemma StraightUsesEnergy(s: State, t: nat, a: Action)
    requires Enabled(s, OfThread(t, a)) && Straight(a) && !Scheduling(a)
    ensures Energy(ApplyThread(s, t, a)) < Energy(s)
  {
    if MutexAction(a) {
      MutexUsesEnergy(s, t, a);
    } else if a.DoOwnPoll? {
      EnergyMove(s, OwnPoll(s, t, a.result), t);
    } else {
      EnergyMove(s, ApplyThread(s, t, a), t);
    }
  }

  lemma MutexUsesEnergy(s: State, t: nat, a: Action)
    requires Enabled(s, OfThread(t, a)) && MutexAction(a)
    ensures Energy(ApplyThread(s, t, a)) < Energy(s)
  {
    EnergyMove(s, ApplyThread(s, t, a), t);
  }

  lemma ThreadUsesEnergy(s: State, t: nat, a: Action)
    requires Enabled(s, OfThread(t, a)) && !a.DoWake? && !a.DoCancel?
    ensures Energy(ApplyThread(s, t, a)) < Energy(s)
  {
    if a.DoTryCancel? {
      TryCancelUsesEnergy(s, t);
    } else if a.DoEnter? {
      EnterUsesEnergy(s, t);
    } else if a.DoOwnMatch? {
      OwnMatchUsesEnergy(s, t);
    } else if a.DoOwnRelease? {
      OwnReleaseUsesEnergy(s, t);
    } else if a.DoFinFill? {
      FinFillUsesEnergy(s, t);
    } else if Scheduling(a) {
      SchedulingUsesEnergy(s, t, a);
    } else {
      StraightUsesEnergy(s, t, a);
    }
  }

  lemma JoinerUsesEnergy(s: State, a: JoinAction)
    requires Enabled(s, OfJoiner(a)) && !a.Poll?
    ensures Energy(ApplyJoin(s, a)) < Energy(s)
  {
    match a
    case Lock =>
    case Take => assert JoinCost(JoinTake(s).joiner) < JoinCost(s.joiner);
    case Drop => assert JoinCost(JoinDrop(s).joiner) < JoinCost(s.joiner);
    case Register => assert JoinCost(JoinRegister(s).joiner) < JoinCost(s.joiner);
  }

  lemma InternalStepsUseEnergy(s: State, step: Step)
    requires Enabled(s, step) && Internal(step)
    ensures Energy(Apply(s, step)) < Energy(s)
  {
    match step
    case OfThread(t, a) => ThreadUsesEnergy(s, t, a);
    case OfJoiner(a) => JoinerUsesEnergy(s, a);
    case Transfer =>
  }

  /** However the scheduler interleaves them, internal steps run out. */
  lemma {:induction false} InternalRunsEnd(s: State, steps: seq<Step>)
    requires IsRun(s, steps) && forall k :: 0 <= k < |steps| ==> Internal(steps[k])
    ensures |steps| + Energy(After(s, steps)) <= Energy(s)
  {
    if steps != [] {
      InternalRunsEnd(s, Init(steps));
      InternalStepsUseEnergy(After(s, Init(steps)), Last(steps));
    }
  }

  /** A worker taking the task out of a queue. */
  predicate PicksUp(step: Step) {
    step.Transfer? || (step.OfThread? && step.action.DoTakeLocal?)
  }

  /** Nothing is left to happen, except perhaps that a worker picks the task up. */
  ghost predicate Settled(s: State) {
    forall step :: Internal(step) && !PicksUp(step) ==> !Enabled(s, step)
  }

  /**
   Whether or not any worker is awake: where everybody has finished, a wake that is owed and a
   cancellation are in a queue, and a joiner that was told Pending has been woken if there is a
   result.
   */
  lemma SettledAnswersOrQueues(threads: nat, s: State)
    requires threads > 0 && Reachable(threads, s) && Settled(s)
    ensures s.state.IDLE? || s.state.COMPLETED? || (s.state.CANCELLED? && (s.linked || s.local > 0))
    ensures s.owed ==> s.state.COMPLETED? || s.linked || s.local > 0
    ensures s.pending.Some? && s.state.COMPLETED? ==> s.woken
    ensures s.lock.Nobody? && s.joiner.Resting? && s.owner.None?
  {
    ReachableInv(threads, s);
    forall t | 0 <= t < |s.threads|
      ensures s.threads[t].Elsewhere? || s.threads[t].OwnLocking? || s.threads[t].FinLocking?
    {
      ThreadCanMove(s, t);
    }
    JoinerCanMove(s);
    assert s.lock.Thread? ==> ThreadInv(s, s.lock.t, s.threads[s.lock.t]);
    assert s.lock.Nobody?;
    forall t | 0 <= t < |s.threads| ensures s.threads[t].Elsewhere? {
      assert !Enabled(s, OfThread(t, DoOwnLock)) && !Enabled(s, OfThread(t, DoFinLock));
    }
  }

  ghost predicate Quiescent(s: State) {
    forall step :: Internal(step) ==> !Enabled(s, step)
  }

  /** Where no worker has anything to pick up either, nothing is owed at all. */
  lemma QuiescenceAnswersEverything(threads: nat, s: State)
    requires threads > 0 && Reachable(threads, s) && |s.threads| > 0 && Quiescent(s)
    ensures s.state.IDLE? || s.state.COMPLETED?
    ensures s.owed ==> s.state.COMPLETED?
    ensures s.pending.Some? && s.state.COMPLETED? ==> s.woken
    ensures s.lock.Nobody? && s.joiner.Resting? && !s.linked && s.local == 0
  {
    SettledAnswersOrQueues(threads, s);
    ThreadCanMove(s, 0);
    assert !Enabled(s, OfThread(0, DoOwnLock)) && !Enabled(s, OfThread(0, DoFinLock));
    assert !Enabled(s, Transfer) && !Enabled(s, OfThread(0, DoTakeLocal));
  }

  /** A thread in the middle of anything can move unless it waits for the future mutex. */
  lemma ThreadCanMove(s: State, t: nat)
    requires t < |s.threads| && Settled(s)
    ensures s.threads[t].Elsewhere? || s.threads[t].OwnLocking? || s.threads[t].FinLocking?
  {
    var a := match s.threads[t]
      case Waking => DoPushLocal
      case Enqueueing => DoEnqueue
      case Announcing => DoAnnounce
      case Entering => DoEnter
      case OwnMatching => DoOwnMatch
      case OwnPolling => DoOwnPoll(Pending)
      case OwnPublishing => DoOwnPublish
      case OwnYielding => DoOwnYield
      case OwnReleasing => DoOwnRelease
      case FinFilling => DoFinFill
      case FinStoring => DoFinStore
      case Unlocking => DoUnlock
      case JoinWaking => DoWakeJoiner
      case Cancelling => DoTryCancel
      case _ => DoOwnLock;
    assert !Enabled(s, OfThread(t, a));
  }

  lemma JoinerCanMove(s: State)
    requires Settled(s)
    ensures s.joiner.Resting? || (s.joiner.Locking? && !s.lock.Nobody?)
  {
    assert !Enabled(s, OfJoiner(Take)) && !Enabled(s, OfJoiner(Drop));
    assert !Enabled(s, OfJoiner(Register)) && !Enabled(s, OfJoiner(Lock));
  }

  // ---------------------------------------------------------------------------
  // An abort is honoured, and nothing else decides but the future's own answer
  // ---------------------------------------------------------------------------

  predicate Over(state: TaskState) {
    state.CANCELLED? || state.COMPLETED?
  }

  /** Whatever else goes on, `cancel` leaves the task cancelled unless it had completed. */
  lemma CancelTakesEffect(s: State, t: nat)
    requires SafetyInv(s) && Is(s, t, Cancelling)
    ensures var s' := Apply(s, OfThread(t, DoTryCancel));
            && s'.state == (if s.state.COMPLETED? then COMPLETED else CANCELLED)
            && (!Over(s.state) ==> s'.threads[t].Enqueueing?)
  {
  }

  ghost predicate SomeCancels(s: State) {
    exists t :: 0 <= t < |s.threads| && s.threads[t].Cancelling?
  }

  /** At this point a thread has an abort on its hands. */
  predicate Aborts(pc: Pc) {
    pc.Cancelling? || Finishes(pc)
  }

  /** What a step of thread `t` from `s` to `s'` does about aborts; `begins` if it is a call of abort. */
  predicate AbortMove(s: State, s': State, t: nat, begins: bool) {
    && t < |s.threads| == |s'.threads| && s'.threads == s.threads[t := s'.threads[t]]
    && (Over(s.state) ==> Over(s'.state))
    && (s.threads[t].Cancelling? ==> Over(s'.state))
    && (begins ==> s'.threads[t].Cancelling?)
    && (!begins && (Aborts(s'.threads[t]) || s'.state.CANCELLED?) ==> Aborts(s.threads[t]) || s.state.CANCELLED?)
  }

  lemma SchedulingMoves(s: State, t: nat, a: Action)
    requires Enabled(s, OfThread(t, a)) && Scheduling(a)
    ensures AbortMove(s, ApplyThread(s, t, a), t, a.DoCancel?)
  {
  }

  lemma StraightMoves(s: State, t: nat, a: Action)
    requires Enabled(s, OfThread(t, a)) && Straight(a) && !Scheduling(a)
    ensures AbortMove(s, ApplyThread(s, t, a), t, false)
  {
    if MutexAction(a) {
      assert AbortMove(s, ApplyThread(s, t, a), t, false);
    }
  }

  lemma ThreadMoves(s: State, t: nat, a: Action)
    requires Enabled(s, OfThread(t, a)) && ThreadInv(s, t, s.threads[t])
    ensures AbortMove(s, ApplyThread(s, t, a), t, a.DoCancel?)
  {
    if Scheduling(a) {
      SchedulingMoves(s, t, a);
    } else if Straight(a) {
      StraightMoves(s, t, a);
    } else if a.DoTryCancel? || a.DoEnter? {
      StateMoves(s, t, a);
    } else if a.DoOwnRelease? {
      assert AbortMove(s, OwnRelease(s, t), t, false);
    } else {
      SlotMoves(s, t, a);
    }
  }

  lemma StateMoves(s: State, t: nat, a: Action)
    requires Enabled(s, OfThread(t, a)) && (a.DoTryCancel? || a.DoEnter?)
    ensures AbortMove(s, ApplyThread(s, t, a), t, false)
  {
  }

  lemma SlotMoves(s: State, t: nat, a: Action)
    requires Enabled(s, OfThread(t, a)) && (a.DoOwnMatch? || a.DoFinFill?)
    ensures AbortMove(s, ApplyThread(s, t, a), t, false)
  {
  }

  /** Only threads of the task touch its state. */
  lemma OthersLeaveAborts(s: State, step: Step)
    requires Enabled(s, step) && !step.OfThread?
    ensures Apply(s, step).threads == s.threads && Apply(s, step).state == s.state
  {
  }

  /** No step revives a task that is over, and a canceller stays one until it has taken effect. */
  lemma OverStays(s: State, step: Step)
    requires Enabled(s, step) && (step.OfThread? ==> ThreadInv(s, step.t, s.threads[step.t]))
    ensures Over(s.state) ==> Over(Apply(s, step).state)
    ensures SomeCancels(s) ==> SomeCancels(Apply(s, step)) || Over(Apply(s, step).state)
    ensures step.OfThread? && step.action.DoCancel? ==> SomeCancels(Apply(s, step))
  {
    var s' := Apply(s, step);
    if step.OfThread? {
      ThreadMoves(s, step.t, step.action);
      if u :| 0 <= u < |s.threads| && s.threads[u].Cancelling? {
        assert u != step.t ==> s'.threads[u].Cancelling?;
      }
    } else {
      OthersLeaveAborts(s, step);
    }
  }

  /** After an abort was called, over every run: its canceller is still on its way or the task is over for good. */
  lemma {:induction false} AbortIsHonoured(threads: nat, steps: seq<Step>, k: nat)
    requires threads > 0 && IsRun(New(threads), steps)
    requires k < |steps| && steps[k].OfThread? && steps[k].action.DoCancel?
    ensures var s := After(New(threads), steps); SomeCancels(s) || Over(s.state)
  {
    var s := After(New(threads), Init(steps));
    assert Reachable(threads, s);
    ReachableInv(threads, s);
    OverStays(s, Last(steps));
    if k < |steps| - 1 {
      assert Init(steps)[k] == steps[k];
      AbortIsHonoured(threads, Init(steps), k);
    }
  }

  /** So where everything has come to rest after an abort, the task is completed. */
  lemma AbortEndsCompleted(threads: nat, steps: seq<Step>, k: nat)
    requires threads > 0 && IsRun(New(threads), steps)
    requires k < |steps| && steps[k].OfThread? && steps[k].action.DoCancel?
    requires var s := After(New(threads), steps); |s.threads| > 0 && Quiescent(s)
    ensures After(New(threads), steps).state.COMPLETED?
  {
    var s := After(New(threads), steps);
    AbortIsHonoured(threads, steps, k);
    assert Reachable(threads, s);
    QuiescenceAnswersEverything(threads, s);
    forall t | 0 <= t < |s.threads| ensures !s.threads[t].Cancelling? {
      ThreadCanMove(s, t);
    }
  }

  /** The step is a poll of the user's future that answered `o`, or an abort if `o` is Aborted. */
  predicate Explains(step: Step, o: Outcome) {
    && step.OfThread?
    && (step.action == DoOwnPoll(Finished(o)) || (o.Aborted? && step.action.DoCancel?))
  }

  /** An abort has been called. */
  ghost predicate Aborting(s: State) {
    s.state.CANCELLED? || exists t :: 0 <= t < |s.threads| && Aborts(s.threads[t])
  }

  lemma AbortingBegins(s: State, step: Step)
    requires Enabled(s, step) && (step.OfThread? ==> ThreadInv(s, step.t, s.threads[step.t]))
    requires Aborting(Apply(s, step)) && !Aborting(s)
    ensures step.OfThread? && step.action.DoCancel?
  {
    if step.OfThread? {
      ThreadMoves(s, step.t, step.action);
    } else {
      OthersLeaveAborts(s, step);
    }
  }

  lemma {:induction false} AbortingHasCause(threads: nat, steps: seq<Step>) returns (k: nat)
    requires threads > 0 && IsRun(New(threads), steps) && Aborting(After(New(threads), steps))
    ensures k < |steps| && steps[k].OfThread? && steps[k].action.DoCancel?
  {
    assert steps != [];
    var s := After(New(threads), Init(steps));
    assert Reachable(threads, s);
    ReachableInv(threads, s);
    if Aborting(s) {
      k := AbortingHasCause(threads, Init(steps));
    } else {
      AbortingBegins(s, Last(steps));
      k := |steps| - 1;
    }
  }

  /** The step that decides: the future's own answer, or Aborted by a thread that finishes a cancellation. */
  lemma DecidingStep(s: State, step: Step)
    requires SafetyInv(s) && Enabled(s, step) && s.decided == [] && Apply(s, step).decided != []
    ensures step.OfThread?
    ensures || step.action == DoOwnPoll(Finished(Apply(s, step).decided[0]))
            || (Apply(s, step).decided[0] == Aborted && Finishes(s.threads[step.t]))
  {
    if !(step.OfThread? && (step.action.DoOwnPoll? || step.action.DoFinFill?)) {
      OthersDecideNothing(s, step);
    }
  }

  lemma OthersDecideNothing(s: State, step: Step)
    requires Enabled(s, step) && !(step.OfThread? && (step.action.DoOwnPoll? || step.action.DoFinFill?))
    ensures Apply(s, step).decided == s.decided
  {
    if step.OfThread? && Scheduling(step.action) {
      SchedulingDecidesNothing(s, step.t, step.action);
    } else if step.OfThread? {
      ThreadDecidesNothing(s, step.t, step.action);
    }
  }

  lemma SchedulingDecidesNothing(s: State, t: nat, a: Action)
    requires Enabled(s, OfThread(t, a)) && Scheduling(a)
    ensures ApplyThread(s, t, a).decided == s.decided
  {
  }

  lemma ThreadDecidesNothing(s: State, t: nat, a: Action)
    requires Enabled(s, OfThread(t, a)) && !Scheduling(a) && !a.DoOwnPoll? && !a.DoFinFill?
    ensures ApplyThread(s, t, a).decided == s.decided
  {
  }

  /** Over every run the outcome is what a poll of the future answered, or Aborted after an abort. */
  lemma {:induction false} OutcomeHasCause(threads: nat, steps: seq<Step>) returns (k: nat)
    requires threads > 0 && IsRun(New(threads), steps) && After(New(threads), steps).decided != []
    ensures k < |steps| && Explains(steps[k], After(New(threads), steps).decided[0])
  {
    assert steps != [];
    var s := After(New(threads), Init(steps));
    assert Reachable(threads, s);
    ReachableInv(threads, s);
    if s.decided != [] {
      DecisionStep(s, Last(steps));
      k := OutcomeHasCause(threads, Init(steps));
      assert Init(steps)[k] == steps[k];
    } else {
      DecidingStep(s, Last(steps));
      if Finishes(s.threads[Last(steps).t]) {
        k := AbortingHasCause(threads, Init(steps));
        assert Init(steps)[k] == steps[k];
      } else {
        k := |steps| - 1;
      }
    }
  }
}
