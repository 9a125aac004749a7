/**
 What the answers of `poll_readiness` and of the `Readiness` future mean, and what the driver does to
 the flags and to whom it wakes, over every run of the protocol of `IoWaiters`.
 */
module IoAnswers {
  import opened Basics
  import opened Sequences
  import opened ReadyFlags
  import opened IoWaiters

  // ---------------------------------------------------------------------------
  // The flags are what events have set and clients have not cleared
  // ---------------------------------------------------------------------------

  /** The event the driver took up last. */
  function LatestEvent(steps: seq<Step>): set<Flag> {
    if steps == [] then {}
    else if Last(steps).OfDriver? && Last(steps).act.TakeEvent? then Last(steps).act.event
    else LatestEvent(Init(steps))
  }

  /** Every flag of an event the driver has set, less what was cleared since. */
  function Shown(steps: seq<Step>): set<Flag> {
    if steps == [] then {}
    else if Last(steps) == OfDriver(DriverStep.Set) then Shown(Init(steps)) + LatestEvent(Init(steps))
    else if Last(steps).Clear? then Shown(Init(steps)) - Last(steps).flags
    else Shown(Init(steps))
  }

  lemma {:induction false} FlagsAreHistory(interests: seq<Interest>, steps: seq<Step>)
    requires IsRun(New(interests), steps)
    ensures var s := After(New(interests), steps);
            s.ready == Shown(steps) && (!s.driver.Polling? ==> s.driver.event == LatestEvent(steps))
  {
    if steps != [] {
      FlagsAreHistory(interests, Init(steps));
      FlagStep(After(New(interests), Init(steps)), Last(steps));
    }
  }

  lemma FlagStep(s: State, step: Step)
    requires Enabled(s, step)
    ensures var t := Apply(s, step);
            if step == OfDriver(DriverStep.Set) then
              t.ready == s.ready + s.driver.event && !t.driver.Polling? && t.driver.event == s.driver.event
            else if step.Clear? then t.ready == s.ready - step.flags && t.driver == s.driver
            else if step.OfDriver? && step.act.TakeEvent? then
              t.ready == s.ready && !t.driver.Polling? && t.driver.event == step.act.event
            else
              t.ready == s.ready && (!t.driver.Polling? ==> !s.driver.Polling? && t.driver.event == s.driver.event)
  {
  }

  // ---------------------------------------------------------------------------
  // Nobody is woken by an event that does not concern it
  // ---------------------------------------------------------------------------

  predicate Concerns(s: State, from: Target) {
    && !s.driver.Polling?
    && match from
       case SlotOf(d) => Meets(s.driver.event, DirectionFlags(d))
       case NodeOf(k) => k < |s.interests| && Meets(s.driver.event, Wanted(s.interests[k]))
  }

  predicate BatchConcerned(s: State) {
    forall i :: 0 <= i < |s.batch| ==> Concerns(s, s.batch[i].from)
  }

  lemma StepKeepsConcerned(s: State, step: Step)
    requires Inv(s) && Enabled(s, step) && BatchConcerned(s)
    ensures BatchConcerned(Apply(s, step))
  {
    var t := Apply(s, step);
    if !step.OfDriver? {
      assert t.batch == s.batch && t.driver == s.driver && t.interests == s.interests;
    } else if step.act.Flush? {
      assert forall i :: 0 <= i < |t.batch| ==> t.batch[i] == s.batch[i + 1];
    }
  }

  lemma {:induction false} RunKeepsConcerned(interests: seq<Interest>, steps: seq<Step>)
    requires IsRun(New(interests), steps)
    ensures BatchConcerned(After(New(interests), steps))
  {
    if steps != [] {
      RunKeepsConcerned(interests, Init(steps));
      RunInv(interests, Init(steps));
      StepKeepsConcerned(After(New(interests), Init(steps)), Last(steps));
    }
  }

  /** Over every run, a step that calls a waker does so for an event that concerns its owner. */
  lemma NobodyWokenInVain(interests: seq<Interest>, steps: seq<Step>, e: Taken)
    requires IsRun(New(interests), steps) && steps != []
    requires e in After(New(interests), steps).woken && e !in After(New(interests), Init(steps)).woken
    ensures Last(steps) == OfDriver(DriverStep.Flush) && Concerns(After(New(interests), Init(steps)), e.from)
  {
    RunKeepsConcerned(interests, Init(steps));
    WokenByFlush(After(New(interests), Init(steps)), Last(steps), e);
  }

  lemma WokenByFlush(s: State, step: Step, e: Taken)
    requires Enabled(s, step) && e in Apply(s, step).woken && e !in s.woken
    ensures step == OfDriver(DriverStep.Flush) && s.batch != [] && s.batch[0] == e
  {
  }

  // ---------------------------------------------------------------------------
  // What `poll_readiness` answers
  // ---------------------------------------------------------------------------

  /** Step `j` is a look of the poller of `d` at the word, and that direction was ready or not. */
  ghost predicate LookedAt(interests: seq<Interest>, steps: seq<Step>, j: nat, d: Direction, a: PollStep, ready: bool) {
    && j < |steps| && steps[j] == OfPoller(d, a) && IsRun(New(interests), steps[..j])
    && SeesReady(After(New(interests), steps[..j]), d) == ready
  }

  /** There was such a look after step `i`. */
  ghost predicate Looked(interests: seq<Interest>, steps: seq<Step>, i: nat, d: Direction, a: PollStep, ready: bool) {
    exists j :: i < j && LookedAt(interests, steps, j, d, a, ready)
  }

  lemma LookedBefore(interests: seq<Interest>, steps: seq<Step>, i: nat, d: Direction, a: PollStep, ready: bool)
    requires steps != [] && Looked(interests, Init(steps), i, d, a, ready)
    ensures Looked(interests, steps, i, d, a, ready)
  {
    var j :| i < j && LookedAt(interests, Init(steps), j, d, a, ready);
    assert steps[..j] == Init(steps)[..j] && steps[j] == Init(steps)[j];
    assert LookedAt(interests, steps, j, d, a, ready);
  }

  lemma LookedLast(interests: seq<Interest>, steps: seq<Step>, i: nat, d: Direction, a: PollStep)
    requires IsRun(New(interests), steps) && i < |steps| - 1 && Last(steps) == OfPoller(d, a)
    ensures Looked(interests, steps, i, d, a, SeesReady(After(New(interests), Init(steps)), d))
  {
    assert steps[..|steps| - 1] == Init(steps);
    assert LookedAt(interests, steps, |steps| - 1, d, a, SeesReady(After(New(interests), Init(steps)), d));
  }

  predicate Starts(step: Step, d: Direction) {
    step.OfPoller? && step.d == d && step.poll.Start?
  }

  /** The latest poll in direction `d` began at step `i`, with waker `w`. */
  predicate PollBegan(steps: seq<Step>, i: nat, d: Direction, w: nat) {
    i < |steps| && steps[i] == OfPoller(d, Start(w)) && forall j :: i < j < |steps| ==> !Starts(steps[j], d)
  }

  /** What the looks of that poll have shown, given where it is. */
  ghost predicate PollExplained(interests: seq<Interest>, steps: seq<Step>, i: nat, d: Direction, w: nat, pc: PollPc) {
    match pc
    case Loading(v) => v == w
    case Locking(v) => v == w && Looked(interests, steps, i, d, Load, false)
    case Storing(v) => v == w && Looked(interests, steps, i, d, Load, false)
    case Checking(v) => v == w && Looked(interests, steps, i, d, Load, false)
    case Unlocking(v, empty) => v == w && Looked(interests, steps, i, d, Check, !empty)
    case Resting(None) => Looked(interests, steps, i, d, Load, true) || Looked(interests, steps, i, d, Check, true)
    case Resting(Some(v)) => v == w && Looked(interests, steps, i, d, Check, false)
  }

  lemma ExplainedBefore(interests: seq<Interest>, steps: seq<Step>, i: nat, d: Direction, w: nat, pc: PollPc)
    requires steps != [] && PollExplained(interests, Init(steps), i, d, w, pc)
    ensures PollExplained(interests, steps, i, d, w, pc)
  {
    forall a, ready | Looked(interests, Init(steps), i, d, a, ready) ensures Looked(interests, steps, i, d, a, ready) {
      LookedBefore(interests, steps, i, d, a, ready);
    }
  }

  lemma PollerFrame(s: State, step: Step, d: Direction)
    requires Enabled(s, step) && !(step.OfPoller? && step.d == d)
    ensures Get(Apply(s, step).pollers, d) == Get(s.pollers, d)
  {
  }

  lemma PollMoves(interests: seq<Interest>, steps: seq<Step>, i: nat, d: Direction, w: nat)
    requires IsRun(New(interests), steps) && i < |steps| - 1 && Last(steps).OfPoller? && Last(steps).d == d
    requires !Starts(Last(steps), d)
    requires PollExplained(interests, Init(steps), i, d, w, Get(After(New(interests), Init(steps)).pollers, d))
    ensures PollExplained(interests, steps, i, d, w, Get(After(New(interests), steps).pollers, d))
  {
    var s := After(New(interests), Init(steps));
    ExplainedBefore(interests, steps, i, d, w, Get(s.pollers, d));
    LookedLast(interests, steps, i, d, Last(steps).poll);
    PollMoveExplains(interests, steps, s, i, d, w, Last(steps).poll);
  }

  /** From one point of the poll to the next, given that its look, if this is one, is on record. */
  lemma PollMoveExplains(interests: seq<Interest>, steps: seq<Step>, s: State, i: nat, d: Direction, w: nat,
                         a: PollStep)
    requires PollEnabled(s, d, a) && !a.Start? && PollExplained(interests, steps, i, d, w, Get(s.pollers, d))
    requires Looked(interests, steps, i, d, a, SeesReady(s, d))
    ensures PollExplained(interests, steps, i, d, w, Get(ApplyPoll(s, d, a).pollers, d))
  {
  }

  /**
   The answer of a poll, over every run: Ready only if one of its looks, the first or the one under
   the lock, found its direction ready; Pending only if the look under the lock did not, and then with
   the waker it was called with.
   */
  lemma {:induction false} PollAnswer(interests: seq<Interest>, steps: seq<Step>, i: nat, d: Direction, w: nat)
    requires IsRun(New(interests), steps) && PollBegan(steps, i, d, w)
    ensures PollExplained(interests, steps, i, d, w, Get(After(New(interests), steps).pollers, d))
  {
    if i < |steps| - 1 {
      assert PollBegan(Init(steps), i, d, w);
      PollAnswer(interests, Init(steps), i, d, w);
      assert !Starts(steps[|steps| - 1], d);
      if Last(steps).OfPoller? && Last(steps).d == d {
        PollMoves(interests, steps, i, d, w);
      } else {
        PollerFrame(After(New(interests), Init(steps)), Last(steps), d);
        ExplainedBefore(interests, steps, i, d, w, Get(After(New(interests), Init(steps)).pollers, d));
      }
    }
  }

  /** Direction `d` was ready before step `j`. */
  ghost predicate ReadyAt(interests: seq<Interest>, steps: seq<Step>, j: nat, d: Direction) {
    j <= |steps| && IsRun(New(interests), steps[..j]) && SeesReady(After(New(interests), steps[..j]), d)
  }

  /** Direction `d` was ready at some time after step `i`. */
  ghost predicate WasReady(interests: seq<Interest>, steps: seq<Step>, i: nat, d: Direction) {
    exists j :: i < j < |steps| && ReadyAt(interests, steps, j, d)
  }

  lemma LookedNeedsReady(interests: seq<Interest>, steps: seq<Step>, i: nat, d: Direction, a: PollStep)
    requires Looked(interests, steps, i, d, a, true)
    ensures WasReady(interests, steps, i, d)
  {
    var j :| i < j && LookedAt(interests, steps, j, d, a, true);
    assert ReadyAt(interests, steps, j, d);
  }

  /** A poll during which its direction was never ready ends Pending, with its waker. */
  lemma UnreadyPollIsPending(interests: seq<Interest>, steps: seq<Step>, i: nat, d: Direction, w: nat)
    requires IsRun(New(interests), steps) && PollBegan(steps, i, d, w)
    requires !WasReady(interests, steps, i, d)
    requires Get(After(New(interests), steps).pollers, d).Resting?
    ensures Get(After(New(interests), steps).pollers, d) == Resting(Some(w))
  {
    PollAnswer(interests, steps, i, d, w);
    if Looked(interests, steps, i, d, Load, true) {
      LookedNeedsReady(interests, steps, i, d, Load);
    } else if Looked(interests, steps, i, d, Check, true) {
      LookedNeedsReady(interests, steps, i, d, Check);
    }
  }

  // ---------------------------------------------------------------------------
  // What the `Readiness` future answers
  // ---------------------------------------------------------------------------

  /** Step `j` is a look of future `k` at the word: its first, or the one under the lock. */
  ghost predicate FutureLookedAt(interests: seq<Interest>, steps: seq<Step>, j: nat, k: nat, locked: bool, ready: bool)
  {
    && k < |interests| && j < |steps| && steps[j].OfFuture? && steps[j].k == k && IsRun(New(interests), steps[..j])
    && (if locked then steps[j].move.InitCheck? else steps[j].move.FirstLoad?)
    && var s := After(New(interests), steps[..j]); |s.interests| > k && SeesWanted(s, k) == ready
  }

  ghost predicate FutureLooked(interests: seq<Interest>, steps: seq<Step>, k: nat, locked: bool, ready: bool) {
    exists j :: FutureLookedAt(interests, steps, j, k, locked, ready)
  }

  /** Step `j` is the driver taking the node of future `k` off the list, for an event it waits for. */
  ghost predicate RemovedAt(interests: seq<Interest>, steps: seq<Step>, j: nat, k: nat) {
    && k < |interests| && j < |steps| && steps[j] == OfDriver(DriverStep.Scan) && IsRun(New(interests), steps[..j])
    && var s := After(New(interests), steps[..j]);
       && s.driver.WakeScanning? && s.list != [] && s.list[0] == k
       && Meets(s.driver.event, Wanted(interests[k]))
  }

  ghost predicate Removed(interests: seq<Interest>, steps: seq<Step>, k: nat) {
    exists j :: RemovedAt(interests, steps, j, k)
  }

  /** Why future `k` is where it is. */
  ghost predicate FutureExplained(interests: seq<Interest>, steps: seq<Step>, k: nat, pc: FuturePc, listed: bool) {
    match pc
    case Fresh => true
    case InitLocking(_) => FutureLooked(interests, steps, k, false, false)
    case InitChecking(_) => FutureLooked(interests, steps, k, false, false)
    case InitPushing(_) => FutureLooked(interests, steps, k, true, false)
    case Finishing => FutureLooked(interests, steps, k, true, true) || Removed(interests, steps, k)
    case Finished =>
      || FutureLooked(interests, steps, k, false, true) || FutureLooked(interests, steps, k, true, true)
      || Removed(interests, steps, k)
    case _ => FutureLooked(interests, steps, k, true, false) && (listed || Removed(interests, steps, k))
  }

  lemma FutureExplainedBefore(interests: seq<Interest>, steps: seq<Step>, k: nat, pc: FuturePc, listed: bool)
    requires steps != [] && FutureExplained(interests, Init(steps), k, pc, listed)
    ensures FutureExplained(interests, steps, k, pc, listed)
  {
    forall locked, ready | FutureLooked(interests, Init(steps), k, locked, ready)
      ensures FutureLooked(interests, steps, k, locked, ready)
    {
      var j: nat :| FutureLookedAt(interests, Init(steps), j, k, locked, ready);
      assert steps[..j] == Init(steps)[..j] && steps[j] == Init(steps)[j];
      assert FutureLookedAt(interests, steps, j, k, locked, ready);
    }
    if Removed(interests, Init(steps), k) {
      var j: nat :| RemovedAt(interests, Init(steps), j, k);
      assert steps[..j] == Init(steps)[..j] && steps[j] == Init(steps)[j];
      assert RemovedAt(interests, steps, j, k);
    }
  }

  /** A step of somebody else leaves the future where it is, and takes its node only by a scan that meets it. */
  lemma FutureFrame(s: State, step: Step, k: nat)
    requires Inv(s) && Enabled(s, step) && k < |s.futures| && !(step.OfFuture? && step.k == k)
    ensures |Apply(s, step).futures| == |s.futures| && Apply(s, step).futures[k] == s.futures[k]
    ensures k in s.list && k !in Apply(s, step).list ==>
              && step == OfDriver(DriverStep.Scan) && s.driver.WakeScanning? && s.list[0] == k
              && Meets(s.driver.event, Wanted(s.interests[k]))
  {
    if !step.OfDriver? {
      OthersKeepListed(s, step, k);
    } else if step.act.Scan? {
      assert k in s.list && s.list[0] != k ==> k in s.list[1..];
    }
  }

  lemma OthersKeepListed(s: State, step: Step, k: nat)
    requires Enabled(s, step) && !step.OfDriver? && k < |s.futures| && !(step.OfFuture? && step.k == k)
    ensures |Apply(s, step).futures| == |s.futures| && Apply(s, step).futures[k] == s.futures[k]
    ensures k in s.list ==> k in Apply(s, step).list
  {
  }

  lemma OthersExplain(interests: seq<Interest>, steps: seq<Step>, k: nat)
    requires IsRun(New(interests), steps) && steps != [] && !(Last(steps).OfFuture? && Last(steps).k == k)
    requires var s := After(New(interests), Init(steps));
             && Inv(s) && s.interests == interests && k < |s.futures|
             && FutureExplained(interests, Init(steps), k, s.futures[k], k in s.list)
    ensures var t := After(New(interests), steps);
            k < |t.futures| && FutureExplained(interests, steps, k, t.futures[k], k in t.list)
  {
    var s, t := After(New(interests), Init(steps)), After(New(interests), steps);
    FutureFrame(s, Last(steps), k);
    FutureExplainedBefore(interests, steps, k, s.futures[k], k in s.list);
    if k in s.list && k !in t.list {
      assert steps[..|steps| - 1] == Init(steps);
      assert RemovedAt(interests, steps, |steps| - 1, k);
    }
  }

  lemma OwnExplain(interests: seq<Interest>, steps: seq<Step>, k: nat)
    requires IsRun(New(interests), steps) && steps != [] && Last(steps).OfFuture? && Last(steps).k == k
    requires var s := After(New(interests), Init(steps));
             && Inv(s) && s.interests == interests && k < |s.futures|
             && FutureExplained(interests, Init(steps), k, s.futures[k], k in s.list)
    ensures var t := After(New(interests), steps);
            k < |t.futures| && FutureExplained(interests, steps, k, t.futures[k], k in t.list)
  {
    var s, move := After(New(interests), Init(steps)), Last(steps).move;
    FutureExplainedBefore(interests, steps, k, s.futures[k], k in s.list);
    assert steps[..|steps| - 1] == Init(steps);
    if move.FirstLoad? || move.InitCheck? {
      assert FutureLookedAt(interests, steps, |steps| - 1, k, move.InitCheck?, SeesWanted(s, k));
    }
    OwnMoveExplains(interests, steps, s, k, move);
  }

  /** From one point of the future's poll to the next, given that its looks are on record. */
  lemma OwnMoveExplains(interests: seq<Interest>, steps: seq<Step>, s: State, k: nat, move: FutureStep)
    requires Shaped(s) && k < |s.futures| && FutureEnabled(s, k, move)
    requires FutureExplained(interests, steps, k, s.futures[k], k in s.list)
    requires move.FirstLoad? || move.InitCheck? ==>
               FutureLooked(interests, steps, k, move.InitCheck?, SeesWanted(s, k))
    ensures var t := ApplyFuture(s, k, move);
            k < |t.futures| && FutureExplained(interests, steps, k, t.futures[k], k in t.list)
  {
  }

  /**
   Over every run: a `Readiness` future finishes only because a look of its own found what it waits
   for, or because an event that has it took its node off the list; it pushes its node only after a
   look under the lock found nothing; and once pushed, the node is listed until such an event.
   */
  lemma {:induction false} FutureAnswer(interests: seq<Interest>, steps: seq<Step>, k: nat)
    requires IsRun(New(interests), steps) && k < |interests|
    ensures var s := After(New(interests), steps);
            && s.interests == interests && k < |s.futures|
            && FutureExplained(interests, steps, k, s.futures[k], k in s.list)
  {
    if steps != [] {
      FutureAnswer(interests, Init(steps), k);
      RunInv(interests, Init(steps));
      InterestsStay(After(New(interests), Init(steps)), Last(steps));
      if Last(steps).OfFuture? && Last(steps).k == k {
        OwnExplain(interests, steps, k);
      } else {
        OthersExplain(interests, steps, k);
      }
    }
  }

  lemma InterestsStay(s: State, step: Step)
    requires Enabled(s, step)
    ensures Apply(s, step).interests == s.interests
  {
  }

  // ---------------------------------------------------------------------------
  // The list is in order of registration, newest first
  // ---------------------------------------------------------------------------

  /** The futures that pushed their node, newest first. */
  function Pushes(steps: seq<Step>): seq<nat> {
    if steps == [] then []
    else if Last(steps).OfFuture? && Last(steps).move.InitPush? then [Last(steps).k] + Pushes(Init(steps))
    else Pushes(Init(steps))
  }

  /** `part` is `all` with some elements left out. */
  predicate Among(part: seq<nat>, all: seq<nat>) {
    || part == []
    || (all != [] && (Among(part, all[1..]) || (part[0] == all[0] && Among(part[1..], all[1..]))))
  }

  lemma {:induction false} AmongDrops(part: seq<nat>, all: seq<nat>)
    requires part != [] && Among(part, all)
    ensures Among(part[1..], all)
  {
    if Among(part, all[1..]) {
      AmongDrops(part, all[1..]);
    }
  }

  lemma ListMoves(s: State, step: Step)
    requires Enabled(s, step)
    ensures var t := Apply(s, step);
            if step.OfFuture? && step.move.InitPush? then t.list == [step.k] + s.list
            else t.list == s.list || (s.list != [] && t.list == s.list[1..])
  {
  }

  /** Over every run the waiter list holds some of the pushed nodes, the latest in front. */
  lemma {:induction false} NewestFirst(interests: seq<Interest>, steps: seq<Step>)
    requires IsRun(New(interests), steps)
    ensures Among(After(New(interests), steps).list, Pushes(steps))
  {
    if steps != [] {
      NewestFirst(interests, Init(steps));
      var s := After(New(interests), Init(steps));
      ListMoves(s, Last(steps));
      if Last(steps).OfFuture? && Last(steps).move.InitPush? {
        var part, all := [Last(steps).k] + s.list, [Last(steps).k] + Pushes(Init(steps));
        assert part[1..] == s.list && all[1..] == Pushes(Init(steps));
      } else if After(New(interests), steps).list != s.list {
        AmongDrops(s.list, Pushes(steps));
      }
    }
  }
}
