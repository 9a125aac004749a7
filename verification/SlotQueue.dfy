/**
 The parked-worker queue of `src/sync_slot_map.rs`, as the interleaving of its atomic
 memory operations.

 `slots[i]` holds the index that follows `i`; any value above `cap` means "no successor yet".
 Index `cap` is the stub. Any number of producers run `push` concurrently with the one thread
 that owns the exclusive half and runs `pop`. Each atomic load, store or swap is one step.
 */
module SlotQueue {
  import opened Sequences

  /** Where a producer is inside `push(index)`. */
  datatype PushPc =
    | Quiet
    | Cleared(index: nat)             // stored "no successor" in slots[index]
    | Swapped(index: nat, prev: nat)  // swapped itself into head, has yet to link slots[prev]

  /** Where the owner of the exclusive half is inside `pop`. */
  datatype PopPc =
    | Resting
    | SkippedStub      // moved past the stub, about to load the new tail's successor
    | CheckHead        // saw no successor, about to compare head with tail
    | StubClear        // head was tail: about to run push(cap)
    | StubSwap
    | StubLink(prev: nat)
    | Reload           // stub pushed, about to load the tail's successor again

  datatype ReadySlot = Ready(index: nat) | Inconsistent | None

  datatype Event = Silent | Enqueued(index: nat) | Popped(slot: ReadySlot)

  /**
   `chain` and `overlap` are auxiliary: no step reads them to decide what memory does.
   `chain` lists the nodes from `tail` to `head` in the order they were swapped into `head`.
   `overlap` says that a push was between its swap and its link when the current `pop`
   began, or swapped since.
   */
  datatype State = State(
    cap: nat,
    head: nat,
    slots: seq<nat>,
    tail: nat,
    producers: seq<PushPc>,
    consumer: PopPc,
    chain: seq<nat>,
    overlap: bool)

  datatype Step =
    | PushClear(t: nat, index: nat)
    | PushSwap(t: nat)
    | PushLink(t: nat)
    | PopStep

  function New(cap: nat, producers: nat): (s: State) {
    State(cap, cap, seq(cap + 1, _ => cap + 1), cap,
          seq(producers, _ => Quiet), Resting, [cap], false)
  }

  /** The queue as its users see it: the linked indices without the stub. */
  function Queue(s: State): seq<nat> {
    Without(s.chain, s.cap)
  }

  ghost predicate InPush(s: State, index: nat) {
    exists t :: 0 <= t < |s.producers| && s.producers[t].Cleared? && s.producers[t].index == index
  }

  ghost predicate LinkPending(s: State) {
    exists t :: 0 <= t < |s.producers| && s.producers[t].Swapped?
  }

  predicate WellFormed(s: State) {
    && |s.slots| == s.cap + 1
    && s.head <= s.cap
    && s.tail <= s.cap
    && s.chain != []
    && (forall t :: 0 <= t < |s.producers| ==>
          match s.producers[t]
          case Quiet => true
          case Cleared(i) => i < s.cap
          case Swapped(i, p) => i < s.cap && p <= s.cap)
    && (s.consumer.StubLink? ==> s.consumer.prev <= s.cap)
  }

  /** The thread of `step` is at that point of its `push` or `pop`. */
  ghost predicate AtPoint(s: State, step: Step) {
    WellFormed(s) &&
    match step
    case PushClear(t, i) => t < |s.producers| && s.producers[t].Quiet? && i < s.cap
    case PushSwap(t) => t < |s.producers| && s.producers[t].Cleared?
    case PushLink(t) => t < |s.producers| && s.producers[t].Swapped?
    case PopStep => true
  }

  /** What the queue asks of its callers: push an index only while it is not queued. */
  ghost predicate Permitted(s: State, step: Step) {
    step.PushClear? ==> step.index !in s.chain && !InPush(s, step.index)
  }

  ghost predicate Enabled(s: State, step: Step) {
    AtPoint(s, step) && Permitted(s, step)
  }

  /** `exclusive.tail = next`: the old tail leaves the queue. */
  function Advance(s: State, next: nat, pc: PopPc): State
    requires s.chain != []
  {
    s.(tail := next, chain := s.chain[1..], consumer := pc)
  }

  ghost function ApplyPop(s: State): State
    requires WellFormed(s)
  {
    var next := s.slots[s.tail];
    match s.consumer
    case Resting =>
      var s := s.(overlap := LinkPending(s));
      if s.tail == s.cap then
        if next > s.cap then s else Advance(s, next, SkippedStub)
      else if next <= s.cap then Advance(s, next, Resting)
      else s.(consumer := CheckHead)
    case SkippedStub =>
      if next <= s.cap then Advance(s, next, Resting) else s.(consumer := CheckHead)
    case CheckHead =>
      if s.head != s.tail then s.(consumer := Resting) else s.(consumer := StubClear)
    case StubClear => s.(slots := s.slots[s.cap := s.cap + 1], consumer := StubSwap)
    case StubSwap => s.(head := s.cap, chain := s.chain + [s.cap], consumer := StubLink(s.head))
    case StubLink(prev) => s.(slots := s.slots[prev := s.cap], consumer := Reload)
    case Reload =>
      if next <= s.cap then Advance(s, next, Resting) else s.(consumer := Resting)
  }

  ghost function Apply(s: State, step: Step): State
    requires AtPoint(s, step)
  {
    match step
    case PushClear(t, i) =>
      s.(slots := s.slots[i := s.cap + 1], producers := s.producers[t := Cleared(i)])
    case PushSwap(t) =>
      var i := s.producers[t].index;
      s.(head := i, chain := s.chain + [i], overlap := true,
         producers := s.producers[t := Swapped(i, s.head)])
    case PushLink(t) =>
      var Swapped(i, prev) := s.producers[t];
      s.(slots := s.slots[prev := i], producers := s.producers[t := Quiet])
    case PopStep => ApplyPop(s)
  }

  /** What a step shows to the callers of `push` and `pop`. */
  function Emits(s: State, step: Step): Event
    requires WellFormed(s)
    requires step.PushSwap? ==> step.t < |s.producers| && s.producers[step.t].Cleared?
  {
    match step
    case PushSwap(t) => Enqueued(s.producers[t].index)
    case PushClear(_, _) => Silent
    case PushLink(_) => Silent
    case PopStep =>
      var next := s.slots[s.tail];
      match s.consumer
      case Resting =>
        if s.tail == s.cap then (if next > s.cap then Popped(None) else Silent)
        else if next <= s.cap then Popped(Ready(s.tail)) else Silent
      case SkippedStub => if next <= s.cap then Popped(Ready(s.tail)) else Silent
      case CheckHead => if s.head != s.tail then Popped(Inconsistent) else Silent
      case Reload => if next <= s.cap then Popped(Ready(s.tail)) else Popped(Inconsistent)
      case _ => Silent
  }

  // ---------------------------------------------------------------------------
  // The invariant
  // ---------------------------------------------------------------------------

  /** Some thread has swapped `b` in after `a` and has yet to store the link. */
  ghost predicate Owes(s: State, a: nat, b: nat) {
    || (exists t :: 0 <= t < |s.producers| && s.producers[t] == Swapped(b, a))
    || (b == s.cap && s.consumer == StubLink(a))
  }

  ghost predicate Linked(s: State, a: nat, b: nat)
    requires |s.slots| == s.cap + 1 && a <= s.cap
  {
    if s.slots[a] <= s.cap then s.slots[a] == b else Owes(s, a, b)
  }

  /** The chain runs from tail to head through distinct nodes; every gap is owed by someone. */
  ghost predicate ChainInv(s: State)
    requires WellFormed(s)
  {
    && s.chain[0] == s.tail
    && s.chain[|s.chain| - 1] == s.head
    && (forall k :: 0 <= k < |s.chain| ==> s.chain[k] <= s.cap)
    && Distinct(s.chain)
    && s.slots[s.head] > s.cap
    && (forall k :: 0 < k < |s.chain| ==> Linked(s, s.chain[k - 1], s.chain[k]))
  }

  ghost predicate ProducerInv(s: State, t: nat)
    requires WellFormed(s) && t < |s.producers|
  {
    match s.producers[t]
    case Quiet => true
    case Cleared(i) => i !in s.chain && s.slots[i] > s.cap
    case Swapped(i, p) => Adjacent(s.chain, p, i) && s.slots[p] > s.cap
  }

  ghost predicate ConsumerInv(s: State)
    requires WellFormed(s)
  {
    && (!s.consumer.Resting? ==> s.tail != s.cap)
    && (s.consumer.StubClear? || s.consumer.StubSwap? ==> s.cap !in s.chain)
    && (s.consumer.StubSwap? ==> s.slots[s.cap] > s.cap)
    && (s.consumer.StubLink? ==>
          Adjacent(s.chain, s.consumer.prev, s.cap) && s.slots[s.consumer.prev] > s.cap)
    && (s.consumer.StubLink? || s.consumer.Reload? ==> |s.chain| > 1)
  }

  /** What a pop that no push overlaps can rely on. */
  ghost predicate QuietInv(s: State)
    requires WellFormed(s)
  {
    !s.overlap && !s.consumer.Resting? ==>
      && !LinkPending(s)
      && (s.consumer.CheckHead? || s.consumer.StubClear? || s.consumer.StubSwap? ==> s.head == s.tail)
      && (s.consumer.StubLink? ==> s.consumer.prev == s.tail && s.chain == [s.tail, s.cap])
      && (s.consumer.Reload? ==> s.chain == [s.tail, s.cap] && s.slots[s.tail] == s.cap)
  }

  ghost predicate SameIndexSameProducer(s: State) {
    forall t, u ::
      0 <= t < |s.producers| && 0 <= u < |s.producers| && !s.producers[t].Quiet?
      && !s.producers[u].Quiet? && s.producers[t].index == s.producers[u].index
      ==> t == u
  }

  ghost predicate Inv(s: State) {
    && WellFormed(s)
    && ChainInv(s)
    && (forall t :: 0 <= t < |s.producers| ==> ProducerInv(s, t))
    && SameIndexSameProducer(s)
    && ConsumerInv(s)
    && QuietInv(s)
  }

  lemma NewInv(cap: nat, producers: nat)
    ensures Inv(New(cap, producers)) && Queue(New(cap, producers)) == []
  {
    assert Without([cap], cap) == Without([], cap);
  }

  // ---------------------------------------------------------------------------
  // Every step keeps the invariant
  // ---------------------------------------------------------------------------

  /** A link survives a producer step that neither writes its slot nor pays its debt. */
  lemma LinkKeptByProducer(s: State, s': State, t: nat, a: nat, b: nat)
    requires WellFormed(s) && WellFormed(s') && t < |s.producers|
    requires |s'.producers| == |s.producers| && s'.consumer == s.consumer && s'.cap == s.cap
    requires forall u :: 0 <= u < |s.producers| && u != t ==> s'.producers[u] == s.producers[u]
    requires a <= s.cap && s'.slots[a] == s.slots[a] && s.producers[t] != Swapped(b, a)
    requires Linked(s, a, b)
    ensures Linked(s', a, b)
  {
    if u :| 0 <= u < |s.producers| && s.producers[u] == Swapped(b, a) {
      assert s'.producers[u] == Swapped(b, a);
    }
  }

  /** Likewise for a step of the consumer outside its own link store. */
  lemma LinkKeptByConsumer(s: State, s': State, a: nat, b: nat)
    requires WellFormed(s) && WellFormed(s')
    requires s'.producers == s.producers && s'.cap == s.cap && s.consumer != StubLink(a)
    requires a <= s.cap && s'.slots[a] == s.slots[a] && Linked(s, a, b)
    ensures Linked(s', a, b)
  {
    if u :| 0 <= u < |s.producers| && s.producers[u] == Swapped(b, a) {
      assert s'.producers[u] == Swapped(b, a);
    }
  }

  lemma PushClearKeepsInv(s: State, t: nat, i: nat)
    requires Inv(s) && Enabled(s, PushClear(t, i))
    ensures Inv(Apply(s, PushClear(t, i)))
  {
    var s' := Apply(s, PushClear(t, i));
    forall k | 0 < k < |s.chain| ensures Linked(s', s.chain[k - 1], s.chain[k]) {
      LinkKeptByProducer(s, s', t, s.chain[k - 1], s.chain[k]);
    }
    forall u | 0 <= u < |s.producers| ensures ProducerInv(s', u) {
      assert ProducerInv(s, u);
    }
    forall u | 0 <= u < |s.producers| && !s.producers[u].Quiet?
      ensures s.producers[u].index != i
    {
      assert ProducerInv(s, u);
    }
    assert LinkPending(s') ==> LinkPending(s);
  }

  lemma PushSwapKeepsInv(s: State, t: nat)
    requires Inv(s) && Enabled(s, PushSwap(t))
    ensures Inv(Apply(s, PushSwap(t)))
  {
    var s' := Apply(s, PushSwap(t));
    var i := s.producers[t].index;
    assert ProducerInv(s, t);
    AdjacentLast(s.chain, i);
    assert s'.producers[t] == Swapped(i, s.head);
    forall k | 0 < k < |s'.chain| ensures Linked(s', s'.chain[k - 1], s'.chain[k]) {
      if k < |s.chain| {
        LinkKeptByProducer(s, s', t, s.chain[k - 1], s.chain[k]);
      }
    }
    forall u | 0 <= u < |s.producers| ensures ProducerInv(s', u) {
      assert ProducerInv(s, u);
      if u != t && s.producers[u].Swapped? {
        AdjacentAppend(s.chain, s.producers[u].prev, s.producers[u].index, i);
      }
    }
    if s.consumer.StubLink? {
      AdjacentAppend(s.chain, s.consumer.prev, s.cap, i);
    }
  }

  lemma PushLinkKeepsInv(s: State, t: nat)
    requires Inv(s) && Enabled(s, PushLink(t))
    ensures Inv(Apply(s, PushLink(t)))
  {
    var s' := Apply(s, PushLink(t));
    var Swapped(i, prev) := s.producers[t];
    assert ProducerInv(s, t);
    forall k | 0 < k < |s.chain| ensures Linked(s', s.chain[k - 1], s.chain[k]) {
      assert Adjacent(s.chain, s.chain[k - 1], s.chain[k]);
      AdjacentUnique(s.chain, prev, i, s.chain[k - 1], s.chain[k]);
      if s.chain[k - 1] != prev {
        LinkKeptByProducer(s, s', t, s.chain[k - 1], s.chain[k]);
      }
    }
    forall u | 0 <= u < |s.producers| ensures ProducerInv(s', u) {
      assert ProducerInv(s, u);
      if u != t && s.producers[u].Swapped? {
        AdjacentUnique(s.chain, prev, i, s.producers[u].prev, s.producers[u].index);
      }
    }
    if s.consumer.StubLink? {
      AdjacentUnique(s.chain, prev, i, s.consumer.prev, s.cap);
    }
    assert LinkPending(s);
  }

  /** Moving the tail along a stored link drops exactly the first node of the chain. */
  lemma AdvanceKeepsInv(s: State, pc: PopPc)
    requires Inv(s) && s.slots[s.tail] <= s.cap
    requires s.consumer.Resting? || s.consumer.SkippedStub? || s.consumer.Reload?
    requires pc.Resting? || (pc.SkippedStub? && s.tail == s.cap && s.consumer.Resting?)
    ensures |s.chain| > 1 && s.chain[1] == s.slots[s.tail]
    ensures s.overlap || pc.Resting? || !LinkPending(s) ==> Inv(Advance(s, s.slots[s.tail], pc))
  {
    var s' := Advance(s, s.slots[s.tail], pc);
    assert Linked(s, s.chain[0], s.chain[1]);
    forall k | 0 < k < |s'.chain| ensures Linked(s', s'.chain[k - 1], s'.chain[k]) {
      LinkKeptByConsumer(s, s', s.chain[k], s.chain[k + 1]);
    }
    forall u | 0 <= u < |s.producers| ensures ProducerInv(s', u) {
      assert ProducerInv(s, u);
      if s.producers[u].Swapped? {
        AdjacentDropFirst(s.chain, s.producers[u].prev, s.producers[u].index);
      }
    }
    assert LinkPending(s') ==> LinkPending(s);
  }

  lemma StubSwapKeepsInv(s: State)
    requires Inv(s) && s.consumer.StubSwap?
    ensures Inv(Apply(s, PopStep))
  {
    var s' := Apply(s, PopStep);
    AdjacentLast(s.chain, s.cap);
    forall k | 0 < k < |s'.chain| ensures Linked(s', s'.chain[k - 1], s'.chain[k]) {
      if k < |s.chain| {
        LinkKeptByConsumer(s, s', s.chain[k - 1], s.chain[k]);
      }
    }
    forall u | 0 <= u < |s.producers| ensures ProducerInv(s', u) {
      assert ProducerInv(s, u);
      if s.producers[u].Swapped? {
        AdjacentAppend(s.chain, s.producers[u].prev, s.producers[u].index, s.cap);
      }
    }
    assert LinkPending(s') ==> LinkPending(s);
  }

  lemma StubLinkKeepsInv(s: State)
    requires Inv(s) && s.consumer.StubLink?
    ensures Inv(Apply(s, PopStep))
  {
    var s' := Apply(s, PopStep);
    var prev := s.consumer.prev;
    forall k | 0 < k < |s.chain| ensures Linked(s', s.chain[k - 1], s.chain[k]) {
      assert Adjacent(s.chain, s.chain[k - 1], s.chain[k]);
      AdjacentUnique(s.chain, prev, s.cap, s.chain[k - 1], s.chain[k]);
      if s.chain[k - 1] != prev {
        LinkKeptByConsumer(s, s', s.chain[k - 1], s.chain[k]);
      }
    }
    forall u | 0 <= u < |s.producers| ensures ProducerInv(s', u) {
      assert ProducerInv(s, u);
      if s.producers[u].Swapped? {
        AdjacentUnique(s.chain, prev, s.cap, s.producers[u].prev, s.producers[u].index);
      }
    }
    assert LinkPending(s') ==> LinkPending(s);
  }

  lemma StubClearKeepsInv(s: State)
    requires Inv(s) && s.consumer.StubClear?
    ensures Inv(Apply(s, PopStep))
  {
    var s' := Apply(s, PopStep);
    forall k | 0 < k < |s.chain| ensures Linked(s', s.chain[k - 1], s.chain[k]) {
      LinkKeptByConsumer(s, s', s.chain[k - 1], s.chain[k]);
    }
    forall u | 0 <= u < |s.producers| ensures ProducerInv(s', u) {
      assert ProducerInv(s, u);
    }
    assert LinkPending(s') ==> LinkPending(s);
  }

  /** Steps of `pop` that only load: they change the consumer's position and nothing else. */
  lemma LoadKeepsInv(s: State)
    requires Inv(s) && (s.consumer.Resting? || s.consumer.SkippedStub? || s.consumer.CheckHead? || s.consumer.Reload?)
    requires !s.consumer.CheckHead? ==> s.slots[s.tail] > s.cap
    ensures Inv(Apply(s, PopStep))
  {
    var s' := Apply(s, PopStep);
    forall k | 0 < k < |s.chain| ensures Linked(s', s.chain[k - 1], s.chain[k]) {
      LinkKeptByConsumer(s, s', s.chain[k - 1], s.chain[k]);
    }
    forall u | 0 <= u < |s.producers| ensures ProducerInv(s', u) {
      assert ProducerInv(s, u);
    }
    assert LinkPending(s') == LinkPending(s);
    if s.slots[s.tail] > s.cap && |s.chain| > 1 {
      GapIsOwed(s, 1);
    }
  }

  lemma PopStepKeepsInv(s: State)
    requires Inv(s)
    ensures Inv(Apply(s, PopStep))
  {
    if s.consumer.StubClear? {
      StubClearKeepsInv(s);
    } else if s.consumer.StubSwap? {
      StubSwapKeepsInv(s);
    } else if s.consumer.StubLink? {
      StubLinkKeepsInv(s);
    } else if s.consumer.CheckHead? || s.slots[s.tail] > s.cap {
      LoadKeepsInv(s);
    } else if s.consumer.Resting? {
      var s1 := s.(overlap := LinkPending(s));
      forall k | 0 < k < |s.chain| ensures Linked(s1, s.chain[k - 1], s.chain[k]) {
        LinkKeptByConsumer(s, s1, s.chain[k - 1], s.chain[k]);
      }
      assert forall u :: 0 <= u < |s.producers| ==> ProducerInv(s, u) ==> ProducerInv(s1, u);
      AdvanceKeepsInv(s1, if s.tail == s.cap then SkippedStub else Resting);
    } else {
      AdvanceKeepsInv(s, Resting);
    }
  }

  lemma StepKeepsInv(s: State, step: Step)
    requires Inv(s) && Enabled(s, step)
    ensures Inv(Apply(s, step))
  {
    match step
    case PushClear(t, i) => PushClearKeepsInv(s, t, i);
    case PushSwap(t) => PushSwapKeepsInv(s, t);
    case PushLink(t) => PushLinkKeepsInv(s, t);
    case PopStep => PopStepKeepsInv(s);
  }

  // ---------------------------------------------------------------------------
  // Refinement: the memory steps implement a plain FIFO
  // ---------------------------------------------------------------------------

  /** One step of the abstract first-in first-out queue. */
  ghost predicate FifoStep(q: seq<nat>, q': seq<nat>, event: Event) {
    match event
    case Enqueued(i) => q' == q + [i]
    case Popped(Ready(i)) => q != [] && i == q[0] && q' == q[1..]
    case Popped(None) => q' == q
    case Popped(Inconsistent) => q' == q
    case Silent => q' == q
  }

  /** Every memory step is a FIFO step, and neither the stub nor a foreign index ever leaves. */
  lemma StepRefinesFifo(s: State, step: Step)
    requires Inv(s) && Enabled(s, step)
    ensures FifoStep(Queue(s), Queue(Apply(s, step)), Emits(s, step))
    ensures Emits(s, step).Enqueued? ==> Emits(s, step).index < s.cap && Emits(s, step).index !in Queue(s)
    ensures Emits(s, step).Popped? && Emits(s, step).slot.Ready? ==> Emits(s, step).slot.index < s.cap
  {
    if step.PushSwap? {
      assert ProducerInv(s, step.t);
      WithoutAppend(s.chain, s.producers[step.t].index, s.cap);
    } else if step.PopStep? && s.consumer.StubSwap? {
      WithoutAppend(s.chain, s.cap, s.cap);
    }
  }

  /** A missing link in the chain means that some push has swapped and not yet linked. */
  lemma GapIsOwed(s: State, k: nat)
    requires Inv(s) && 0 < k < |s.chain| && s.slots[s.chain[k - 1]] > s.cap
    ensures LinkPending(s) || s.consumer.StubLink?
  {
    assert Linked(s, s.chain[k - 1], s.chain[k]);
  }

  /** With no overlapping push, `None` means exactly empty and `Inconsistent` cannot happen. */
  lemma UndisturbedPopIsExact(s: State, step: Step)
    requires Inv(s) && Enabled(s, step) && Emits(s, step).Popped?
    ensures !Apply(s, step).overlap ==> (Emits(s, step).slot.None? <==> Queue(s) == [])
    ensures !Apply(s, step).overlap ==> !Emits(s, step).slot.Inconsistent?
  {
    StepRefinesFifo(s, step);
    if s.consumer.Resting? && !LinkPending(s) && s.tail == s.cap && s.slots[s.tail] > s.cap {
      if |s.chain| > 1 {
        GapIsOwed(s, 1);
      }
      assert s.chain == [s.cap];
      assert Without([s.cap], s.cap) == Without([], s.cap);
    }
  }

  /** A producer has swapped itself in after `a` and has yet to link it. */
  ghost predicate LinkOwed(s: State, a: nat) {
    exists t :: 0 <= t < |s.producers| && s.producers[t].Swapped? && s.producers[t].prev == a
  }

  /** The consumer is about to load the successor of its tail. */
  predicate Loads(pc: PopPc) {
    pc.Resting? || pc.SkippedStub? || pc.Reload?
  }

  /**
   What the answers of `pop` mean, however pushes overlap it. A stored link is always followed: from
   the stub to the next node, from any other node to `Ready`. `None` means that nothing is queued or
   the stub's link is owed, `Inconsistent` that something is queued behind the tail, and after the
   stub was pushed again that the tail's link is owed.
   */
  lemma PopAnswers(s: State)
    requires Inv(s)
    ensures Loads(s.consumer) && s.slots[s.tail] <= s.cap ==>
              && Apply(s, PopStep).tail == s.slots[s.tail]
              && Emits(s, PopStep) == (if s.tail == s.cap then Silent else Popped(Ready(s.tail)))
    ensures Emits(s, PopStep) == Popped(None) ==> s.tail == s.cap && (s.chain == [s.cap] || LinkOwed(s, s.cap))
    ensures Emits(s, PopStep) == Popped(Inconsistent) ==>
              s.tail != s.cap && |s.chain| > 1 && (s.consumer.Reload? ==> LinkOwed(s, s.tail))
  {
    if |s.chain| > 1 && s.slots[s.tail] > s.cap {
      assert Linked(s, s.chain[0], s.chain[1]);
      if t :| 0 <= t < |s.producers| && s.producers[t] == Swapped(s.chain[1], s.tail) {
        assert LinkOwed(s, s.tail);
      }
    }
  }

  /** What users of the queue need of a step: who is queued, and whose push it advanced. */
  lemma StepContract(s: State, step: Step)
    requires Inv(s) && Enabled(s, step)
    ensures Inv(Apply(s, step)) && Apply(s, step).cap == s.cap
    ensures var e, q, q' := Emits(s, step), Queue(s), Queue(Apply(s, step));
            match e
            case Enqueued(i) => i < s.cap && i !in q && forall x :: x in q' <==> x in q || x == i
            case Popped(Ready(i)) => i < s.cap && i in q && forall x :: x in q' <==> x in q && x != i
            case _ => q' == q
    ensures Emits(s, step).Popped? ==> Apply(s, step).consumer.Resting?
    ensures step.PopStep? ==> Apply(s, step).producers == s.producers
    ensures !step.PopStep? ==>
              Apply(s, step).consumer == s.consumer && |Apply(s, step).producers| == |s.producers|
  {
    StepKeepsInv(s, step);
    StepRefinesFifo(s, step);
    StepShape(s, step);
    assert Distinct(Queue(s)) by { QueueDistinct(s.chain, s.cap); }
  }

  lemma StepShape(s: State, step: Step)
    requires AtPoint(s, step)
    ensures Apply(s, step).cap == s.cap
    ensures Emits(s, step).Popped? ==> Apply(s, step).consumer.Resting?
    ensures step.PopStep? ==> Apply(s, step).producers == s.producers
    ensures !step.PopStep? ==>
              Apply(s, step).consumer == s.consumer && |Apply(s, step).producers| == |s.producers|
  {
  }

  lemma {:induction false} QueueDistinct(c: seq<nat>, x: nat)
    requires Distinct(c)
    ensures Distinct(Without(c, x))
  {
    if c != [] {
      QueueDistinct(c[1..], x);
      assert c[0] !in c[1..];
    }
  }

  /** The stub is queued at most once, and so is every other index. */
  lemma NothingQueuedTwice(s: State)
    requires Inv(s)
    ensures forall x :: multiset(s.chain)[x] <= 1
    ensures s.cap !in Queue(s)
  {
    forall x ensures multiset(s.chain)[x] <= 1 {
      DistinctMultiplicity(s.chain, x);
    }
  }

  lemma {:induction false} DistinctMultiplicity(c: seq<nat>, x: nat)
    requires Distinct(c)
    ensures multiset(c)[x] <= 1
  {
    if c != [] {
      assert c == [c[0]] + c[1..];
      DistinctMultiplicity(c[1..], x);
      assert c[0] !in c[1..];
    }
  }

  /**
   The chain is no extra information: memory and the producers' registers determine it, and a
   missing link is owed by exactly one thread.
   */
  lemma {:induction false} ChainUnique(s: State, other: seq<nat>, k: nat)
    requires Inv(s) && Inv(s.(chain := other)) && k < |s.chain|
    ensures k < |other| && other[..k + 1] == s.chain[..k + 1]
    ensures k == |s.chain| - 1 ==> other == s.chain
  {
    var s2 := s.(chain := other);
    if k > 0 {
      ChainUnique(s, other, k - 1);
      assert other[k - 1] == other[..k][k - 1] == s.chain[..k][k - 1] == s.chain[k - 1];
      assert s.chain[k - 1] != s.head;
      assert Linked(s, s.chain[k - 1], s.chain[k]);
      assert Linked(s2, other[k - 1], other[k]);
      OneDebtor(s, s.chain[k - 1], s.chain[k], other[k]);
      assert other[..k + 1] == other[..k] + [other[k]];
      assert s.chain[..k + 1] == s.chain[..k] + [s.chain[k]];
    }
    if k == |s.chain| - 1 {
      EndsAtHead(s, s2, k);
    }
  }

  /** Two chains that agree up to the head of one are the same. */
  lemma EndsAtHead(s: State, s2: State, k: nat)
    requires Inv(s) && Inv(s2) && s2.head == s.head && k == |s.chain| - 1 && k < |s2.chain|
    requires s2.chain[..k + 1] == s.chain[..k + 1]
    ensures s2.chain == s.chain
  {
    assert s2.chain[k] == s2.chain[..k + 1][k] == s.chain[..k + 1][k] == s.head;
    assert s2.chain == s2.chain[..k + 1] && s.chain == s.chain[..k + 1];
  }

  lemma OneDebtor(s: State, a: nat, b: nat, c: nat)
    requires Inv(s) && a <= s.cap && Linked(s, a, b) && Linked(s, a, c)
    ensures b == c
    ensures s.slots[a] > s.cap && b != s.cap ==>
              exists t :: 0 <= t < |s.producers| && s.producers[t] == Swapped(b, a)
                          && forall u :: 0 <= u < |s.producers| && u != t && s.producers[u].Swapped?
                                         ==> s.producers[u].prev != a
  {
    if s.slots[a] > s.cap {
      assert forall u :: 0 <= u < |s.producers| && s.producers[u].Swapped? ==> ProducerInv(s, u);
      forall x, y | Owes(s, a, x) && Owes(s, a, y) ensures x == y {
        assert Adjacent(s.chain, a, x) && Adjacent(s.chain, a, y);
        AdjacentUnique(s.chain, a, x, a, y);
      }
      if b != s.cap {
        var t :| 0 <= t < |s.producers| && s.producers[t] == Swapped(b, a);
        forall u | 0 <= u < |s.producers| && u != t && s.producers[u].Swapped?
          ensures s.producers[u].prev != a
        {
          if s.producers[u].prev == a {
            assert Owes(s, a, s.producers[u].index);
          }
        }
      }
    }
  }

  // ---------------------------------------------------------------------------
  // Whole runs
  // ---------------------------------------------------------------------------

  /** `steps` is a run from `s`: each step is enabled where its predecessors lead. */
  ghost predicate IsRun(s: State, steps: seq<Step>)
    decreases |steps|, 0
  {
    steps == [] || (IsRun(s, Init(steps)) && Enabled(After(s, Init(steps)), Last(steps)))
  }

  ghost function After(s: State, steps: seq<Step>): State
    requires IsRun(s, steps)
    decreases |steps|, 1
  {
    if steps == [] then s else Apply(After(s, Init(steps)), Last(steps))
  }

  lemma {:induction false} RunInv(s: State, steps: seq<Step>)
    requires Inv(s) && IsRun(s, steps)
    ensures Inv(After(s, steps))
  {
    if steps != [] {
      RunInv(s, Init(steps));
      StepKeepsInv(After(s, Init(steps)), Last(steps));
    }
  }

  function PushedBy(e: Event): seq<nat> {
    if e.Enqueued? then [e.index] else []
  }

  function HandedOutBy(e: Event): seq<nat> {
    if e.Popped? && e.slot.Ready? then [e.slot.index] else []
  }

  /** What the last step of a run shows. */
  ghost function LastEvent(s: State, steps: seq<Step>): Event
    requires steps != [] && IsRun(s, steps)
  {
    Emits(After(s, Init(steps)), Last(steps))
  }

  /** The indices pushed during a run, in head-swap order. */
  ghost function Pushed(s: State, steps: seq<Step>): seq<nat>
    requires IsRun(s, steps)
  {
    if steps == [] then [] else Pushed(s, Init(steps)) + PushedBy(LastEvent(s, steps))
  }

  /** The indices handed out by `pop` during a run. */
  ghost function HandedOut(s: State, steps: seq<Step>): seq<nat>
    requires IsRun(s, steps)
  {
    if steps == [] then [] else HandedOut(s, Init(steps)) + HandedOutBy(LastEvent(s, steps))
  }

  /**
   In every interleaving, what was pushed is what was handed out followed by what is still
   queued: nothing lost, duplicated or reordered.
   */
  lemma {:induction false} FifoOverRuns(cap: nat, producers: nat, steps: seq<Step>)
    requires IsRun(New(cap, producers), steps)
    ensures Pushed(New(cap, producers), steps)
         == HandedOut(New(cap, producers), steps) + Queue(After(New(cap, producers), steps))
  {
    var s := New(cap, producers);
    NewInv(cap, producers);
    if steps != [] {
      FifoOverRuns(cap, producers, Init(steps));
      RunRefinesFifo(s, steps);
      FifoConserves(Pushed(s, Init(steps)), HandedOut(s, Init(steps)),
                    Queue(After(s, Init(steps))), Queue(After(s, steps)), LastEvent(s, steps));
    }
  }

  lemma RunRefinesFifo(s: State, steps: seq<Step>)
    requires Inv(s) && steps != [] && IsRun(s, steps)
    ensures FifoStep(Queue(After(s, Init(steps))), Queue(After(s, steps)), LastEvent(s, steps))
  {
    RunInv(s, Init(steps));
    StepRefinesFifo(After(s, Init(steps)), Last(steps));
  }

  lemma FifoConserves(pushed: seq<nat>, out: seq<nat>, q: seq<nat>, q': seq<nat>, e: Event)
    requires pushed == out + q && FifoStep(q, q', e)
    ensures pushed + PushedBy(e) == out + HandedOutBy(e) + q'
  {
    if e.Popped? && e.slot.Ready? {
      assert q == [q[0]] + q[1..];
    }
  }
}
