/**
 `SyncSlotMap` of `src/sync_slot_map.rs` as an object over its real memory: the bodies of `push`
 and `pop` statement by statement, run without interference. Their contracts follow from the
 step machine of `SlotQueue`, which covers every interleaving.
 */
module SyncSlotMap {
  import opened SlotQueue

  class SlotMap {
    const cap: nat
    const slots: array<nat>
    var head: nat
    var tail: nat
    ghost var chain: seq<nat>

    /** The object as a state of the step machine with nobody inside `push` or `pop`. */
    ghost function View(): State
      reads this, slots
    {
      State(cap, head, slots[..], tail, [Quiet], Resting, chain, false)
    }

    ghost predicate Valid()
      reads this, slots
    {
      Inv(View())
    }

    ghost function Contents(): seq<nat>
      reads this, slots
    {
      Queue(View())
    }

    constructor (cap: nat)
      ensures Valid() && Contents() == [] && this.cap == cap && fresh(slots)
    {
      this.cap := cap;
      slots := new nat[cap + 1](_ => cap + 1);
      head, tail, chain := cap, cap, [cap];
      new;
      assert View() == New(cap, 1);
      NewInv(cap, 1);
    }

    /** `SyncSlotMapShared::push`: clear the slot, swap into head, link the previous head. */
    method SharedPush(index: nat)
      requires slots.Length == cap + 1 && index <= cap && head <= cap
      modifies this`head, slots
      ensures head == index && slots[..] == old(slots[..])[index := cap + 1][old(head) := index]
    {
      slots[index] := slots.Length;
      var prev := head;
      head := index;
      slots[prev] := index;
    }

    method Push(index: nat)
      requires Valid() && index < cap && index !in Contents()
      modifies this, slots
      ensures Valid() && Contents() == old(Contents()) + [index]
    {
      ghost var s := PushAlone(View(), index);
      chain := chain + [index];
      SharedPush(index);
      assert View() == s;
    }

    method Pop() returns (slot: ReadySlot)
      requires Valid()
      modifies this, slots
      ensures Valid()
      ensures old(Contents()) == [] ==> slot == None && Contents() == []
      ensures old(Contents()) != [] ==>
                slot == Ready(old(Contents())[0]) && Contents() == old(Contents())[1..]
    {
      ghost var s := View();
      assert !LinkPending(s);
      if tail == cap {
        ghost var s1 := PopAlone(s);
        var next := slots[tail];
        if next > cap {
          return None;
        }
        tail := next;
        chain := chain[1..];
        slot := PopTail(s1);
      } else {
        slot := PopTail(s);
      }
    }

    /** The part of `pop` below the stub case, where the tail is a real index. */
    method PopTail(ghost s: State) returns (slot: ReadySlot)
      requires Inv(s) && s.producers == [Quiet] && !s.overlap && s.tail != s.cap
      requires s.consumer.Resting? || s.consumer.SkippedStub?
      requires View() == s.(consumer := Resting)
      modifies this, slots
      ensures Valid() && Queue(s) != []
      ensures slot == Ready(Queue(s)[0]) && Contents() == Queue(s)[1..]
    {
      ghost var s1 := PopAlone(s);
      var next := slots[tail];
      if next <= cap {
        slot := Ready(tail);
        tail := next;
        chain := chain[1..];
        assert View() == s1;
      } else {
        slot := PopLast(s1);
      }
    }

    /** The tail has no successor: unless a push is under way it is the only node. */
    method PopLast(ghost s: State) returns (slot: ReadySlot)
      requires Inv(s) && s.producers == [Quiet] && !s.overlap && s.consumer.CheckHead?
      requires View() == s.(consumer := Resting)
      modifies this, slots
      ensures Valid() && Queue(s) != []
      ensures slot == Ready(Queue(s)[0]) && Contents() == Queue(s)[1..]
    {
      ghost var s1 := PopAlone(s);
      assert head == tail;  // so `Inconsistent` is not returned here
      ghost var s2 := StubPushAlone(s1);
      chain := chain + [cap];
      SharedPush(cap);
      ghost var s3 := PopAlone(s2);
      var next := slots[tail];
      if next <= cap {
        slot := Ready(tail);
        tail := next;
        chain := chain[1..];
        assert View() == s3;
      } else {
        slot := Inconsistent;
      }
    }
  }

  ghost function TakeStep(s: State, step: Step): (s': State)
    requires Inv(s) && Enabled(s, step)
    ensures s' == Apply(s, step) && Inv(s') && FifoStep(Queue(s), Queue(s'), Emits(s, step))
  {
    StepKeepsInv(s, step);
    StepRefinesFifo(s, step);
    Apply(s, step)
  }

  /** A step of `pop` while no push is under way. */
  ghost function PopAlone(s: State): (s': State)
    requires Inv(s) && s.producers == [Quiet] && !s.overlap
    ensures s' == Apply(s, PopStep) && Inv(s') && FifoStep(Queue(s), Queue(s'), Emits(s, PopStep))
    ensures s'.producers == [Quiet] && !s'.overlap
    ensures Emits(s, PopStep) != Popped(Inconsistent)
    ensures Emits(s, PopStep) == Popped(None) ==> Queue(s) == []
  {
    if Emits(s, PopStep).Popped? then
      UndisturbedPopIsExact(s, PopStep);
      TakeStep(s, PopStep)
    else
      TakeStep(s, PopStep)
  }

  lemma ForgetOverlap(s: State)
    requires Inv(s) && s.consumer.Resting?
    ensures Inv(s.(overlap := false)) && Queue(s.(overlap := false)) == Queue(s)
  {
    var s' := s.(overlap := false);
    forall k | 0 < k < |s.chain| ensures Linked(s', s.chain[k - 1], s.chain[k]) {
      LinkKeptByConsumer(s, s', s.chain[k - 1], s.chain[k]);
    }
    assert forall t :: 0 <= t < |s.producers| ==> ProducerInv(s, t) ==> ProducerInv(s', t);
  }

  /** `push` by one producer with nobody else inside. */
  ghost function PushAlone(s: State, i: nat): (s': State)
    requires Inv(s) && s.producers == [Quiet] && s.consumer.Resting? && !s.overlap
    requires i < s.cap && i !in Queue(s)
    ensures Inv(s') && Queue(s') == Queue(s) + [i]
    ensures s' == s.(head := i, chain := s.chain + [i],
                     slots := s.slots[i := s.cap + 1][s.head := i])
  {
    var s1 := LinkAlone(SwapAlone(ClearAlone(s, i), i), i, s.head);
    ForgetOverlap(s1);
    s1.(overlap := false)
  }

  ghost function ClearAlone(s: State, i: nat): (s': State)
    requires Inv(s) && s.producers == [Quiet] && i < s.cap && i !in Queue(s)
    ensures Inv(s') && Queue(s') == Queue(s)
    ensures s' == s.(slots := s.slots[i := s.cap + 1], producers := [Cleared(i)])
  {
    TakeStep(s, PushClear(0, i))
  }

  ghost function SwapAlone(s: State, i: nat): (s': State)
    requires Inv(s) && s.producers == [Cleared(i)]
    ensures Inv(s') && Queue(s') == Queue(s) + [i]
    ensures s' == s.(head := i, chain := s.chain + [i], overlap := true, producers := [Swapped(i, s.head)])
  {
    TakeStep(s, PushSwap(0))
  }

  ghost function LinkAlone(s: State, i: nat, prev: nat): (s': State)
    requires Inv(s) && |s.slots| == s.cap + 1 && prev <= s.cap && s.producers == [Swapped(i, prev)]
    ensures Inv(s') && Queue(s') == Queue(s)
    ensures s' == s.(slots := s.slots[prev := i], producers := [Quiet])
  {
    TakeStep(s, PushLink(0))
  }

  /** `push(cap)` by the consumer once it has seen head equal to tail. */
  ghost function StubPushAlone(s: State): (s': State)
    requires Inv(s) && s.producers == [Quiet] && !s.overlap && s.consumer.StubClear?
    ensures Inv(s') && Queue(s') == Queue(s)
    ensures s' == s.(head := s.cap, chain := s.chain + [s.cap], consumer := Reload,
                     slots := s.slots[s.cap := s.cap + 1][s.head := s.cap])
  {
    var s1 := PopAlone(StubSwapAlone(s));
    s1
  }

  ghost function StubSwapAlone(s: State): (s': State)
    requires Inv(s) && s.producers == [Quiet] && !s.overlap && s.consumer.StubClear?
    ensures Inv(s') && Queue(s') == Queue(s)
    ensures s' == s.(head := s.cap, chain := s.chain + [s.cap], consumer := StubLink(s.head),
                     slots := s.slots[s.cap := s.cap + 1])
  {
    PopAlone(PopAlone(s))
  }
}
