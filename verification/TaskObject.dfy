/**
 `Task` of `src/task.rs` as an object: its calls one at a time, each a run of the protocol of
 `TaskProtocol` with nobody else about. `model` is that protocol's state, kept beside the
 real fields, so what the protocol guarantees holds of the object between calls.
 */
module TaskObject {
  import opened Basics
  import opened TaskProtocol

  /** Nobody is inside a call. */
  ghost predicate AtRest(m: State) {
    SafetyInv(m) && m.threads == [Elsewhere] && m.joiner.Resting? && m.lock.Nobody?
  }

  /** Between calls the state word and the slot agree. */
  lemma RestingStates(m: State)
    requires AtRest(m)
    ensures m.state.IDLE? || m.state.CANCELLED? || m.state.COMPLETED?
    ensures m.slot.Return? <==> m.state.COMPLETED?
    ensures m.owner.None?
  {
    assert ThreadInv(m, 0, m.threads[0]);
  }

  // ---------------------------------------------------------------------------
  // Calls of the protocol, run without interference
  // ---------------------------------------------------------------------------

  /** `run` up to and including the user's poll, on an idle task. */
  ghost function BeginPoll(m: State): (m': State)
    requires AtRest(m) && m.state.IDLE? && m.local > 0
    ensures SafetyInv(m') && m' == m.(local := m.local - 1, state := RUNNING, owner := Some(0), lock := Thread(0),
                                      threads := [OwnPolling], polls := m.polls + 1, owed := false)
  {
    RestingStates(m);
    TakeLocalKeepsInv(m, 0);
    var m1 := TakeLocal(m, 0);
    EnterOwnsKeepsInv(m1, 0);
    var m2 := Enter(m1, 0);
    OwnLockKeepsInv(m2, 0);
    var m3 := OwnLock(m2, 0);
    OwnMatchKeepsInv(m3, 0);
    OwnMatch(m3, 0)
  }

  /** The rest of `run` after Pending. */
  ghost function EndPending(m: State): (m': State)
    requires SafetyInv(m) && m.threads == [OwnPolling] && m.state.RUNNING? && m.joiner.Resting?
    ensures AtRest(m') && m' == m.(state := IDLE, owner := None, lock := Nobody, threads := [Elsewhere])
  {
    OwnPollKeepsInv(m, 0, Pending);
    var m1 := OwnPoll(m, 0, Pending);
    OwnYieldKeepsInv(m1, 0);
    var m2 := OwnYield(m1, 0);
    ReleaseIdleKeepsInv(m2, 0);
    OwnRelease(m2, 0)
  }

  /** The rest of `run` after Ready or a panic. */
  ghost function EndFinished(m: State, o: Outcome): (m': State)
    requires SafetyInv(m) && m.threads == [OwnPolling] && m.state.RUNNING? && m.joiner.Resting?
    ensures AtRest(m')
    ensures m' == m.(state := COMPLETED, slot := Return(o), decided := m.decided + [o], owner := None, lock := Nobody,
                     threads := [Elsewhere], waker := None, woken := m.woken || m.waker.Some?)
  {
    OwnPollKeepsInv(m, 0, Finished(o));
    var m1 := OwnPoll(m, 0, Finished(o));
    OwnPublishKeepsInv(m1, 0);
    var m2 := OwnPublish(m1, 0);
    UnlockKeepsInv(m2, 0);
    var m3 := Unlock(m2, 0);
    WakeJoinerKeepsInv(m3, 0);
    WakeJoiner(m3, 0)
  }

  /** `run` on a cancelled task: `finish_cancellation`. */
  ghost function Finish(m: State): (m': State)
    requires AtRest(m) && m.state.CANCELLED? && m.local > 0
    ensures AtRest(m')
    ensures m' == m.(local := m.local - 1, state := COMPLETED, slot := Return(Aborted),
                     decided := m.decided + [Aborted], waker := None, woken := m.woken || m.waker.Some?)
  {
    RestingStates(m);
    TakeLocalKeepsInv(m, 0);
    var m1 := TakeLocal(m, 0);
    EnterFinishesKeepsInv(m1, 0);
    var m2 := Enter(m1, 0);
    FinLockKeepsInv(m2, 0);
    var m3 := FinLock(m2, 0);
    FinFillKeepsInv(m3, 0);
    Publish(FinFill(m3, 0))
  }

  ghost function Publish(m: State): (m': State)
    requires SafetyInv(m) && m.threads == [FinStoring] && m.joiner.Resting?
    ensures AtRest(m')
    ensures m' == m.(state := COMPLETED, lock := Nobody, threads := [Elsewhere], waker := None,
                     woken := m.woken || m.waker.Some?)
  {
    FinStoreKeepsInv(m, 0);
    var m1 := FinStore(m, 0);
    UnlockKeepsInv(m1, 0);
    var m2 := Unlock(m1, 0);
    WakeJoinerKeepsInv(m2, 0);
    WakeJoiner(m2, 0)
  }

  ghost function CancelAlone(m: State): (m': State)
    requires AtRest(m)
    ensures AtRest(m')
    ensures m' == if m.state.IDLE? then m.(state := CANCELLED, linked := true) else m
  {
    RestingStates(m);
    CancelKeepsInv(m, 0);
    var m1 := At(m, 0, Cancelling);
    if m.state.IDLE? then
      CancelWinsKeepsInv(m1, 0);
      var m2 := TryCancel(m1, 0);
      EnqueueKeepsInv(m2, 0);
      var m3 := Enqueue(m2, 0);
      StepAsideKeepsInv(m3, 0);
      At(m3, 0, Elsewhere)
    else
      StepAsideKeepsInv(m1, 0);
      TryCancel(m1, 0)
  }

  /** One locked look of the join handle at the slot. */
  ghost function TakeAlone(m: State): (m': State)
    requires SafetyInv(m) && m.joiner.Locking? && m.lock.Nobody? && m.threads == [Elsewhere]
    ensures SafetyInv(m')
    ensures if m.slot.Return? then
              m' == m.(joiner := Resting, slot := Return(Aborted), delivered := m.delivered + [m.slot.val])
            else if m.joiner.again then m' == m.(joiner := Resting, pending := Some(m.joiner.w))
            else m' == m.(joiner := Registering(m.joiner.w))
  {
    JoinLockKeepsInv(m);
    var m1 := m.(joiner := Taking(m.joiner.w, m.joiner.again), lock := Joiner);
    JoinTakeKeepsInv(m1);
    var m2 := JoinTake(m1);
    JoinDropKeepsInv(m2);
    JoinDrop(m2)
  }

  class Task {
    var state: TaskState
    var slot: Slot
    var linked: bool
    var waker: Option<nat>
    ghost var model: State

    ghost predicate Valid()
      reads this
    {
      && AtRest(model)
      && state == model.state && slot == model.slot && linked == model.linked && waker == model.waker
    }

    /** A spawned task: scheduled once on a local queue, not polled yet. */
    constructor ()
      ensures Valid() && state.IDLE? && slot.Future? && !linked && waker.None? && model.local == 1
    {
      state, slot, linked, waker := IDLE, Future, false, None;
      model := PushLocal(New(1), 0);
      new;
      NewInv(1);
      PushLocalKeepsInv(New(1), 0);
    }

    /** `run`, given what the user's future answers if it is polled. */
    method Run(answer: PollResult)
      requires Valid() && model.local > 0
      modifies this
      ensures Valid() && linked == old(linked)
      ensures old(state).IDLE? && answer.Pending? ==> state.IDLE? && slot.Future? && waker == old(waker)
      ensures old(state).IDLE? && answer.Finished? ==> state.COMPLETED? && slot == Return(answer.outcome) && waker.None?
      ensures old(state).CANCELLED? ==> state.COMPLETED? && slot == Return(Aborted) && waker.None?
      ensures old(state).COMPLETED? ==> state.COMPLETED? && slot == old(slot) && waker == old(waker)
      ensures model.polls == old(model.polls) + if old(state).IDLE? then 1 else 0
    {
      RestingStates(model);
      if state.IDLE? {
        state := RUNNING;
        model := BeginPoll(model);
        match answer {
          case Pending =>
            state := IDLE;
            model := EndPending(model);
          case Finished(outcome) =>
            slot := Return(outcome);
            state := COMPLETED;
            waker := None;
            model := EndFinished(model, outcome);
        }
      } else if state.CANCELLED? {
        FinishCancellation();
      } else {
        TakeLocalKeepsInv(model, 0);
        model := TakeLocal(model, 0);
        StepAsideKeepsInv(model, 0);
        model := At(model, 0, Elsewhere);
      }
    }

    method FinishCancellation()
      requires Valid() && state.CANCELLED? && model.local > 0
      modifies this
      ensures Valid() && state.COMPLETED? && slot == Return(Aborted) && waker.None? && linked == old(linked)
      ensures model.polls == old(model.polls)
    {
      RestingStates(model);
      if slot.Future? {
        slot := Return(Aborted);
      }
      state := COMPLETED;
      waker := None;
      model := Finish(model);
    }

    /** `JoinHandle::abort`: a task that has completed keeps its result. */
    method Cancel()
      requires Valid()
      modifies this
      ensures Valid() && slot == old(slot) && waker == old(waker)
      ensures state == if old(state).COMPLETED? then COMPLETED else CANCELLED
      ensures linked == (old(linked) || old(state).IDLE?)
    {
      RestingStates(model);
      model := CancelAlone(model);
      if !state.COMPLETED? && !state.CANCELLED? {
        state := CANCELLED;
        linked := true;
      }
    }

    method TakeOutput() returns (out: Option<Outcome>)
      modifies this`slot
      ensures out == if old(slot).Return? then Some(old(slot).val) else None
      ensures slot == if old(slot).Return? then Return(Aborted) else old(slot)
    {
      out := None;
      if slot.Return? {
        out := Some(slot.val);
        slot := Return(Aborted);
      }
    }

    /** `JoinHandle::poll` with waker `w`: take, and if there is nothing register and take again. */
    method PollJoin(w: nat) returns (out: Option<Outcome>)
      requires Valid()
      modifies this
      ensures Valid() && state == old(state) && linked == old(linked)
      ensures out.Some? <==> old(state).COMPLETED?
      ensures out.Some? ==> old(slot) == Return(out.value) && slot == Return(Aborted) && waker == old(waker)
      ensures out.None? ==> slot == old(slot) && waker == Some(w) && model.pending == Some(w)
    {
      RestingStates(model);
      JoinPollKeepsInv(model, w);
      model := TakeAlone(model.(joiner := Locking(w, false), pending := None));
      out := TakeOutput();
      if out.None? {
        waker := Some(w);
        JoinRegisterKeepsInv(model);
        model := JoinRegister(model);
        out := TakeOutput();
        model := TakeAlone(model);
      }
    }
  }
}
