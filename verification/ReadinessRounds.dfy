/**
 The readiness word under concurrency. One driver sets readiness round by round while any number
 of clients read events and clear them again; the slab reuses the entry when nobody is left. Every
 load and every compare-and-swap is one step, so an attempt that lost a race retries with what it
 saw.
 */
module ReadinessRounds {
  import opened Basics
  import opened Sequences
  import opened Bits
  import opened ReadyFlags
  import opened ReadinessWord

  /**
   `ReadyEvent`. Auxiliary: `interest`, what its reader asked for; `seen`, the round of the last set
   it could see; `readIn`, the round in which it looked.
   */
  datatype Event = Event(tick: nat, ready: nat, interest: Interest, seen: Option<nat>, readIn: nat)

  datatype DriverPc = Polling | Setting(ready: nat, current: nat)

  datatype ClientPc = Idle | Holding(event: Event) | Clearing(event: Event, current: nat)

  /**
   The driver's `u8` tick is `round % 256`. Auxiliary: `lastSet`, the round of the last set in
   this generation, and `stamp`, the round in which each flag was last set.
   */
  datatype State = State(
    width: nat,
    word: nat,
    round: nat,
    driver: DriverPc,
    clients: seq<ClientPc>,
    lastSet: Option<nat>,
    stamp: map<Flag, nat>)

  datatype Step =
    | NextRound
    | SetLoad(ready: nat)
    | SetSwap
    | Read(c: nat, interest: Interest)
    | Forget(c: nat)
    | ClearLoad(c: nat)
    | ClearSwap(c: nat)
    | Reuse

  function New(width: nat, clients: nat): State {
    State(width, 0, 0, Polling, seq(clients, _ => Idle), None, map[])
  }

  predicate Enabled(s: State, step: Step) {
    s.width >= 32 &&
    match step
    case NextRound => s.driver.Polling?
    // the tick is advanced before the first poll
    case SetLoad(ready) => s.driver.Polling? && ready < 16 && s.round > 0
    case SetSwap => s.driver.Setting?
    case Read(c, _) => c < |s.clients| && s.clients[c].Idle?
    case Forget(c) => c < |s.clients| && s.clients[c].Holding?
    case ClearLoad(c) => c < |s.clients| && s.clients[c].Holding?
    case ClearSwap(c) => c < |s.clients| && s.clients[c].Clearing?
    // the slab clears an entry only once every reference to it is gone
    case Reuse => s.driver.Polling? && forall c :: 0 <= c < |s.clients| ==> s.clients[c].Idle?
  }

  function Get(x: Option<nat>): nat { if x.Some? then x.value else 0 }

  function ApplySetSwap(s: State): State
    requires s.width >= 32 && s.driver.Setting?
  {
    var Setting(ready, current) := s.driver;
    if s.word == current then
      s.(word := Get(Attempt(s.width, Set(s.round % 256, ready), current)), driver := Polling,
         lastSet := Some(s.round), stamp := s.stamp + map f | f in Flags(ready) :: s.round)
    else s.(driver := Setting(ready, s.word))
  }

  function ApplyRead(s: State, c: nat, i: Interest): State
    requires s.width >= 32 && c < |s.clients|
  {
    var ready := Intersection(FromWord(Unpack(ReadinessField(s.width), s.word)), i);
    s.(clients := s.clients[c := Holding(Event(TickOf(s.width, s.word), ready, i, s.lastSet, s.round))])
  }

  function ApplyClearSwap(s: State, c: nat): State
    requires s.width >= 32 && c < |s.clients| && s.clients[c].Clearing?
  {
    var Clearing(e, current) := s.clients[c];
    var op := ClearOf(s.width, e.tick, e.ready);
    if GivesUp(s.width, op, current) then s.(clients := s.clients[c := Idle])
    else if s.word == current then
      s.(word := Get(Attempt(s.width, op, current)), clients := s.clients[c := Idle])
    else s.(clients := s.clients[c := Clearing(e, s.word)])
  }

  function Apply(s: State, step: Step): State
    requires Enabled(s, step)
  {
    match step
    case NextRound => s.(round := s.round + 1)
    case SetLoad(ready) => s.(driver := Setting(ready, s.word))
    case SetSwap => ApplySetSwap(s)
    case Read(c, i) => ApplyRead(s, c, i)
    case Forget(c) => s.(clients := s.clients[c := Idle])
    case ClearLoad(c) => s.(clients := s.clients[c := Clearing(s.clients[c].event, s.word)])
    case ClearSwap(c) => ApplyClearSwap(s, c)
    case Reuse => s.(word := Get(Reused(s.width, s.word)), lastSet := None, stamp := map[])
  }

  // ---------------------------------------------------------------------------
  // The invariant
  // ---------------------------------------------------------------------------

  predicate EventInv(s: State, e: Event) {
    && e.tick < 256 && Flags(e.ready) <= Wanted(e.interest)
    && (Flags(e.ready) != {} ==>
          && s.lastSet.Some? && e.seen.Some?
          && e.seen.value <= s.lastSet.value && e.tick == e.seen.value % 256)
  }

  predicate ClientInv(s: State, pc: ClientPc) {
    !pc.Idle? ==> EventInv(s, pc.event)
  }

  ghost predicate Inv(s: State) {
    && s.width >= 32
    && s.word < Pow2(SHUTDOWN_BIT)
    && (s.driver.Setting? ==> s.driver.ready < 16)
    && (s.lastSet.Some? ==> s.lastSet.value <= s.round && TickOf(s.width, s.word) == s.lastSet.value % 256)
    && (forall f :: f in FlagsOf(s.width, s.word) ==>
          s.lastSet.Some? && f in s.stamp && s.stamp[f] <= s.lastSet.value)
    && (forall c :: 0 <= c < |s.clients| ==> ClientInv(s, s.clients[c]))
  }

  lemma NewInv(width: nat, clients: nat)
    requires width >= 32
    ensures Inv(New(width, clients))
  {
    forall f: Flag ensures f !in FlagsOf(width, 0) {
      UnpackZero(ReadinessField(width));
      FromWordKeepsFlags(0);
      ZeroBits(Place(f));
    }
  }

  lemma SetSwapKeepsInv(s: State)
    requires Inv(s) && s.driver.Setting?
    ensures Inv(ApplySetSwap(s))
  {
    SetSwapEffect(s);
    if s.word == s.driver.current {
      MoreFlagsKeepInv(s, ApplySetSwap(s));
    }
  }

  lemma MoreFlagsKeepInv(s: State, s': State)
    requires Inv(s) && s.driver.Setting? && s'.driver.Polling? && s'.lastSet == Some(s.round)
    requires s' == s.(word := s'.word, driver := s'.driver, lastSet := s'.lastSet, stamp := s'.stamp)
    requires s'.stamp == s.stamp + map f | f in Flags(s.driver.ready) :: s.round
    requires s'.word < Pow2(SHUTDOWN_BIT) && TickOf(s.width, s'.word) == s.round % 256
    requires FlagsOf(s.width, s'.word) == FlagsOf(s.width, s.word) + Flags(s.driver.ready)
    ensures Inv(s')
  {
    forall c | 0 <= c < |s.clients| ensures ClientInv(s', s.clients[c]) {
      assert ClientInv(s, s.clients[c]);
    }
  }

  /** What the driver's compare-and-swap does to the word, in terms of its fields. */
  lemma SetSwapEffect(s: State)
    requires s.width >= 32 && s.driver.Setting? && s.driver.ready < 16 && s.word < Pow2(SHUTDOWN_BIT)
    ensures var s' := ApplySetSwap(s);
            && s'.word < Pow2(SHUTDOWN_BIT)
            && GenerationOf(s.width, s'.word) == GenerationOf(s.width, s.word)
            && if s'.driver.Polling? then
                 && FlagsOf(s.width, s'.word) == FlagsOf(s.width, s.word) + Flags(s.driver.ready)
                 && TickOf(s.width, s'.word) == s.round % 256
               else s'.word == s.word
  {
    AttemptEffect(s.width, Set(s.round % 256, s.driver.ready), s.driver.current);
  }

  lemma ReadKeepsInv(s: State, c: nat, i: Interest)
    requires Inv(s) && c < |s.clients|
    ensures Inv(ApplyRead(s, c, i))
  {
    FieldsBelow(s.width, s.word);
    var ready := FromWord(Unpack(ReadinessField(s.width), s.word));
    SatisfiesMeansWanted(ready, i);
    var e := Event(TickOf(s.width, s.word), Intersection(ready, i), i, s.lastSet, s.round);
    if Flags(e.ready) != {} {
      var f :| f in Flags(e.ready);
      assert f in FlagsOf(s.width, s.word);
    }
  }

  /** An event shows exactly the flags its reader asked for among those that are set, and the word's tick. */
  lemma ReadShowsWanted(s: State, c: nat, i: Interest)
    requires Inv(s) && Enabled(s, Read(c, i))
    ensures var pc := Apply(s, Read(c, i)).clients[c];
            && pc.Holding? && pc.event.interest == i && pc.event.tick == TickOf(s.width, s.word)
            && Flags(pc.event.ready) == FlagsOf(s.width, s.word) * Wanted(i)
  {
    SatisfiesMeansWanted(FromWord(Unpack(ReadinessField(s.width), s.word)), i);
  }

  lemma ClearSwapKeepsInv(s: State, c: nat)
    requires Inv(s) && c < |s.clients| && s.clients[c].Clearing?
    ensures Inv(ApplyClearSwap(s, c))
  {
    assert EventInv(s, s.clients[c].event);
    ClearSwapEffect(s, c);
    FewerFlagsKeepInv(s, ApplyClearSwap(s, c), c);
  }

  lemma FewerFlagsKeepInv(s: State, s': State, c: nat)
    requires Inv(s) && c < |s.clients| && s.clients[c].Clearing?
    requires |s'.clients| == |s.clients| && s' == s.(word := s'.word, clients := s.clients[c := s'.clients[c]])
    requires s'.clients[c].Idle? || (s'.clients[c].Clearing? && s'.clients[c].event == s.clients[c].event)
    requires s'.word < Pow2(SHUTDOWN_BIT) && TickOf(s.width, s'.word) == TickOf(s.width, s.word)
    requires FlagsOf(s.width, s'.word) <= FlagsOf(s.width, s.word)
    ensures Inv(s')
  {
    assert ClientInv(s, s.clients[c]);
  }

  lemma StepKeepsInv(s: State, step: Step)
    requires Inv(s) && Enabled(s, step)
    ensures Inv(Apply(s, step))
  {
    match step
    case SetSwap => SetSwapKeepsInv(s);
    case Read(c, i) => ReadKeepsInv(s, c, i);
    case ClearSwap(c) => ClearSwapKeepsInv(s, c);
    case Reuse => ReuseKeepsInv(s);
    case NextRound => QuietKeepsInv(s, step);
    case SetLoad(_) => QuietKeepsInv(s, step);
    case Forget(_) => QuietKeepsInv(s, step);
    case ClearLoad(_) => QuietKeepsInv(s, step);
  }

  lemma ReuseKeepsInv(s: State)
    requires Inv(s) && Enabled(s, Reuse)
    ensures Inv(Apply(s, Reuse))
  {
    ReusedEffect(s.width, s.word);
  }

  /** Steps that leave the word alone. */
  lemma QuietKeepsInv(s: State, step: Step)
    requires Inv(s) && Enabled(s, step) && (step.NextRound? || step.SetLoad? || step.Forget? || step.ClearLoad?)
    ensures Inv(Apply(s, step))
  {
    if step.ClearLoad? {
      assert ClientInv(s, s.clients[step.c]);
    }
  }

  // ---------------------------------------------------------------------------
  // What clears may and may not do
  // ---------------------------------------------------------------------------

  /** The flags a step takes away. */
  function Erased(s: State, s': State): set<Flag>
    requires s.width >= 32 && s'.width >= 32
  {
    FlagsOf(s.width, s.word) - FlagsOf(s'.width, s'.word)
  }

  /**
   A clear that swaps takes away exactly the unclosed flags of the event it consumes if the rounds
   of the last set and of the set the event saw agree modulo 256, and nothing otherwise.
   */
  lemma ClearErasesIff(s: State, c: nat, f: Flag)
    requires Inv(s) && c < |s.clients| && s.clients[c].Clearing? && s.clients[c].current == s.word
    ensures f in Erased(s, ApplyClearSwap(s, c)) <==>
              && f in FlagsOf(s.width, s.word) && f in Flags(s.clients[c].event.ready) - CLOSED
              && SameRound(s, s.clients[c].event)
  {
    var e := s.clients[c].event;
    assert ClientInv(s, s.clients[c]);
    assert f in Erased(s, ApplyClearSwap(s, c)) <==>
        TickOf(s.width, s.word) == e.tick && f in FlagsOf(s.width, s.word) * (Flags(e.ready) - CLOSED) by {
      ClearSwapEffect(s, c);
    }
    if f in FlagsOf(s.width, s.word) && f in Flags(e.ready) {
      TicksAgree(s, e);
    }
  }

  /** The rounds of the last set and of the set the event saw agree modulo 256. */
  predicate SameRound(s: State, e: Event) {
    s.lastSet.Some? && e.seen.Some? && (s.lastSet.value - e.seen.value) % 256 == 0
  }

  /** Ticks are equal exactly if the rounds behind them agree modulo 256. */
  lemma TicksAgree(s: State, e: Event)
    requires s.width >= 32 && s.lastSet.Some? && TickOf(s.width, s.word) == s.lastSet.value % 256
    requires e.seen.Some? && e.seen.value <= s.lastSet.value && e.tick == e.seen.value % 256
    ensures TickOf(s.width, s.word) == e.tick <==> SameRound(s, e)
  {
    RoundsAgree(s.lastSet.value, e.seen.value);
  }

  /**
   A clear never erases what a later round has set while the set its event saw is fewer than 256
   rounds old, whatever retries the race forces on it. How recently the event was read is not
   enough, as `TickCanWrap` shows.
   */
  lemma ClearSparesLaterRounds(s: State, c: nat, f: Flag)
    requires Inv(s) && c < |s.clients| && s.clients[c].Clearing?
    requires f in Erased(s, ApplyClearSwap(s, c))
    ensures var e := s.clients[c].event;
            && f in Flags(e.ready) - CLOSED
            && s.lastSet.Some? && e.seen.Some? && f in s.stamp
            && (s.lastSet.value - e.seen.value) % 256 == 0
            && (s.round - e.seen.value < 256 ==> s.stamp[f] <= e.seen.value)
  {
    assert ClientInv(s, s.clients[c]);
    ClearSwapEffect(s, c);
    RoundsAgree(s.lastSet.value, s.clients[c].event.seen.value);
  }

  /** A clear adds nothing; if it swaps, it takes the event's unclosed flags exactly at the current tick. */
  lemma ClearSwapEffect(s: State, c: nat)
    requires s.width >= 32 && c < |s.clients| && s.clients[c].Clearing? && s.clients[c].event.tick < 256
    requires s.word < Pow2(SHUTDOWN_BIT)
    ensures var s' := ApplyClearSwap(s, c);
            && s'.word < Pow2(SHUTDOWN_BIT) && FlagsOf(s.width, s'.word) <= FlagsOf(s.width, s.word)
            && TickOf(s.width, s'.word) == TickOf(s.width, s.word)
            && GenerationOf(s.width, s'.word) == GenerationOf(s.width, s.word)
    ensures var e := s.clients[c].event;
            Erased(s, ApplyClearSwap(s, c)) ==
              if s.clients[c].current == s.word && TickOf(s.width, s.word) == e.tick
              then FlagsOf(s.width, s.word) * (Flags(e.ready) - CLOSED) else {}
  {
    var Clearing(e, current) := s.clients[c];
    AttemptEffect(s.width, ClearOf(s.width, e.tick, e.ready), current);
    ClearSparesClosed(s.width, e.tick, e.ready);
  }

  /** A clear takes nothing from anybody else: only unclosed flags that its own reader asked for. */
  lemma ClearErasesOnlyWanted(s: State, c: nat)
    requires Inv(s) && c < |s.clients| && s.clients[c].Clearing?
    ensures Erased(s, ApplyClearSwap(s, c)) <= Wanted(s.clients[c].event.interest) - CLOSED
  {
    assert ClientInv(s, s.clients[c]);
    ClearSwapEffect(s, c);
  }

  lemma RoundsAgree(last: nat, seen: nat)
    requires seen <= last
    ensures last % 256 == seen % 256 <==> (last - seen) % 256 == 0
    ensures (last - seen) % 256 == 0 && last - seen < 256 ==> last == seen
  {
  }

  /** Only reuse touches the generation, and it adds one modulo 128. */
  lemma GenerationOnlyOnReuse(s: State, step: Step)
    requires Inv(s) && Enabled(s, step)
    ensures var g, g' := GenerationOf(s.width, s.word), GenerationOf(s.width, Apply(s, step).word);
            g' == if step.Reuse? then (g + 1) % 128 else g
    ensures Apply(s, step).width == s.width
  {
    match step
    case SetSwap => SetSwapEffect(s);
    case ClearSwap(c) =>
      assert ClientInv(s, s.clients[c]);
      ClearSwapEffect(s, c);
    case Reuse => ReusedEffect(s.width, s.word);
    case _ =>
  }

  /** A closed flag, once set, stays until the entry is reused. */
  lemma ClosedStays(s: State, step: Step, f: Flag)
    requires Inv(s) && Enabled(s, step) && !step.Reuse?
    requires f in CLOSED && f in FlagsOf(s.width, s.word)
    ensures Apply(s, step).width == s.width && f in FlagsOf(s.width, Apply(s, step).word)
  {
    match step
    case SetSwap => SetSwapEffect(s);
    case ClearSwap(c) =>
      assert ClientInv(s, s.clients[c]);
      ClearSwapEffect(s, c);
      assert f !in Erased(s, ApplyClearSwap(s, c));
    case _ =>
  }

  // ---------------------------------------------------------------------------
  // Whole runs
  // ---------------------------------------------------------------------------

  predicate IsRun(s: State, steps: seq<Step>)
    decreases |steps|, 0
  {
    steps == [] || (IsRun(s, Init(steps)) && Enabled(After(s, Init(steps)), Last(steps)))
  }

  function After(s: State, steps: seq<Step>): State
    requires IsRun(s, steps)
    decreases |steps|, 1
  {
    if steps == [] then s else Apply(After(s, Init(steps)), Last(steps))
  }

  lemma {:induction false} RunInv(s: State, steps: seq<Step>)
    requires Inv(s) && IsRun(s, steps)
    ensures Inv(After(s, steps)) && After(s, steps).width == s.width
  {
    if steps != [] {
      RunInv(s, Init(steps));
      StepKeepsInv(After(s, Init(steps)), Last(steps));
      GenerationOnlyOnReuse(After(s, Init(steps)), Last(steps));
    }
  }

  function Reuses(steps: seq<Step>): nat {
    if steps == [] then 0 else Reuses(Init(steps)) + B(Last(steps).Reuse?)
  }

  /** A dial of 128 that only reuse turns. */
  function Dial(g: nat, steps: seq<Step>): nat {
    if steps == [] then g
    else if Last(steps).Reuse? then (Dial(g, Init(steps)) + 1) % 128
    else Dial(g, Init(steps))
  }

  lemma {:induction false} DialCounts(g: nat, steps: seq<Step>)
    requires g < 128
    ensures Dial(g, steps) == (g + Reuses(steps)) % 128
  {
    if steps != [] {
      DialCounts(g, Init(steps));
    }
  }

  lemma {:induction false} GenerationIsDial(s: State, steps: seq<Step>)
    requires Inv(s) && IsRun(s, steps)
    ensures GenerationOf(s.width, After(s, steps).word) == Dial(GenerationOf(s.width, s.word), steps)
  {
    if steps != [] {
      GenerationIsDial(s, Init(steps));
      RunInv(s, Init(steps));
      GenerationOnlyOnReuse(After(s, Init(steps)), Last(steps));
    }
  }

  /** Over every run the generation counts reuses modulo 128 and nothing else. */
  lemma GenerationOverRuns(s: State, steps: seq<Step>)
    requires Inv(s) && IsRun(s, steps)
    ensures GenerationOf(s.width, After(s, steps).word) == (GenerationOf(s.width, s.word) + Reuses(steps)) % 128
  {
    var g := GenerationOf(s.width, s.word);
    assert Dial(g, steps) == (g + Reuses(steps)) % 128 by {
      FieldsBelow(s.width, s.word);
      DialCounts(g, steps);
    }
    assert GenerationOf(s.width, After(s, steps).word) == Dial(g, steps) by {
      GenerationIsDial(s, steps);
    }
  }

  /** Over every run the word stays below bit 31, so the shutdown bit always reads zero. */
  lemma ShutdownNeverSet(width: nat, clients: nat, steps: seq<Step>)
    requires width >= 32 && IsRun(New(width, clients), steps)
    ensures var s := After(New(width, clients), steps);
            s.width == width && s.word < Pow2(SHUTDOWN_BIT) && ShutdownOf(width, s.word) == 0
  {
    NewInv(width, clients);
    RunInv(New(width, clients), steps);
    NoShutdown(width, After(New(width, clients), steps).word);
  }

  /** Closed flags survive every run without a reuse. */
  lemma {:induction false} ClosedStaysOverRuns(s: State, steps: seq<Step>, f: Flag)
    requires Inv(s) && IsRun(s, steps) && Reuses(steps) == 0
    requires f in CLOSED && f in FlagsOf(s.width, s.word)
    ensures After(s, steps).width == s.width && f in FlagsOf(s.width, After(s, steps).word)
  {
    if steps != [] {
      ClosedStaysOverRuns(s, Init(steps), f);
      RunInv(s, Init(steps));
      ClosedStays(After(s, Init(steps)), Last(steps), f);
    }
  }

  /**
   Over every run: a step that takes flags away, other than reuse, is a clear; its client read the
   event by an earlier step, for an interest that wants every flag that goes.
   */
  lemma ErasureHasReader(width: nat, clients: nat, steps: seq<Step>) returns (k: nat, i: Interest)
    requires width >= 32 && IsRun(New(width, clients), steps) && steps != [] && !Last(steps).Reuse?
    requires var s := After(New(width, clients), Init(steps));
             s.width >= 32 && Apply(s, Last(steps)).width >= 32 && Erased(s, Apply(s, Last(steps))) != {}
    ensures Last(steps).ClearSwap? && k < |steps| - 1 && steps[k] == Read(Last(steps).c, i)
    ensures var s := After(New(width, clients), Init(steps));
            s.width >= 32 && Apply(s, Last(steps)).width >= 32
            && Erased(s, Apply(s, Last(steps))) <= Wanted(i) - CLOSED
  {
    var s := After(New(width, clients), Init(steps));
    NewInv(width, clients);
    RunInv(New(width, clients), Init(steps));
    OnlyClearsErase(s, Last(steps));
    var c := Last(steps).c;
    ClearErasesOnlyWanted(s, c);
    i := s.clients[c].event.interest;
    k := EventWasRead(width, clients, Init(steps), c);
    assert Init(steps)[k] == steps[k];
  }

  lemma OnlyClearsErase(s: State, step: Step)
    requires Inv(s) && Enabled(s, step) && !step.Reuse?
    ensures Apply(s, step).width == s.width
    ensures Erased(s, Apply(s, step)) != {} ==> step.ClearSwap?
  {
    if step.SetSwap? {
      SetSwapEffect(s);
    }
  }

  lemma {:induction false} EventWasRead(width: nat, clients: nat, steps: seq<Step>, c: nat) returns (k: nat)
    requires IsRun(New(width, clients), steps)
    requires var s := After(New(width, clients), steps); c < |s.clients| && !s.clients[c].Idle?
    ensures k < |steps| && steps[k] == Read(c, After(New(width, clients), steps).clients[c].event.interest)
  {
    assert steps != [];
    var s := After(New(width, clients), Init(steps));
    if Last(steps).Read? && Last(steps).c == c {
      k := |steps| - 1;
    } else {
      k := EventWasRead(width, clients, Init(steps), c);
      assert Init(steps)[k] == steps[k];
    }
  }

  // ---------------------------------------------------------------------------
  // The bound of 256 rounds is tight
  // ---------------------------------------------------------------------------

  ghost predicate Closed(P: State -> bool) {
    forall s, step :: P(s) && Enabled(s, step) ==> P(Apply(s, step))
  }

  lemma {:induction false} Rounds(P: State -> bool, s: State, k: nat)
    requires Closed(P) && P(s) && s.width >= 32 && s.driver.Polling?
    ensures P(s.(round := s.round + k))
  {
    if k == 0 {
      assert s.(round := s.round + 0) == s;
    } else {
      Rounds(P, s, k - 1);
      var s' := s.(round := s.round + (k - 1));
      assert Enabled(s', NextRound) && Apply(s', NextRound) == s.(round := s.round + k);
    }
  }

  /** An undisturbed set by the driver. */
  lemma SetNow(P: State -> bool, s: State, ready: nat) returns (s': State)
    requires Closed(P) && P(s) && s.width >= 32 && s.driver.Polling? && ready < 16 && s.round > 0
    ensures P(s') && s' == s.(word := s'.word, lastSet := Some(s.round), stamp := s'.stamp)
    ensures FlagsOf(s.width, s'.word) == FlagsOf(s.width, s.word) + Flags(ready)
    ensures TickOf(s.width, s'.word) == s.round % 256
    ensures forall f :: f in Flags(ready) ==> f in s'.stamp && s'.stamp[f] == s.round
  {
    var s1 := Apply(s, SetLoad(ready));
    assert P(s1) && Enabled(s1, SetSwap);
    s' := Apply(s1, SetSwap);
    AttemptEffect(s.width, Set(s.round % 256, ready), s.word);
  }

  /** A client reads an event that shows `Readable`. */
  lemma ReadNow(P: State -> bool, s: State) returns (s': State, e: Event)
    requires Closed(P) && P(s) && s.width >= 32 && |s.clients| == 1 && s.clients[0].Idle?
    requires Readable in FlagsOf(s.width, s.word)
    ensures P(s') && s' == s.(clients := [Holding(e)])
    ensures e.tick == TickOf(s.width, s.word) && e.seen == s.lastSet && e.readIn == s.round
    ensures Readable in Flags(e.ready)
  {
    var read := Interest(true, false, false);
    s' := Apply(s, Read(0, read));
    e := s'.clients[0].event;
    assert s'.clients == [Holding(e)];
    SatisfiesMeansWanted(FromWord(Unpack(ReadinessField(s.width), s.word)), read);
    assert Readable in Wanted(read);
  }

  /** Clearing an event whose tick matches, undisturbed. */
  lemma ClearNow(P: State -> bool, s: State, e: Event) returns (s1: State)
    requires Closed(P) && P(s) && s.width >= 32 && s.clients == [Holding(e)] && e.tick < 256
    requires TickOf(s.width, s.word) == e.tick && Readable in Flags(e.ready) && Readable in FlagsOf(s.width, s.word)
    ensures P(s1) && s1 == s.(clients := [Clearing(e, s.word)])
    ensures Readable in Erased(s1, ApplyClearSwap(s1, 0))
  {
    s1 := Apply(s, ClearLoad(0));
    assert s1.clients == [Clearing(e, s.word)];
    AttemptEffect(s.width, ClearOf(s.width, e.tick, e.ready), s.word);
    ClearSparesClosed(s.width, e.tick, e.ready);
  }

  ghost predicate Reachable(width: nat, clients: nat, s: State) {
    exists steps :: IsRun(New(width, clients), steps) && s == After(New(width, clients), steps)
  }

  /**
   The next step of client 0 erases a flag that was set `age` rounds after the event it clears was
   read, and 256 rounds after the set which that event saw.
   */
  ghost predicate ErasesLaterRound(s: State, age: nat) {
    && s.width >= 32 && |s.clients| == 1 && s.clients[0].Clearing? && s.clients[0].event.seen.Some?
    && Readable in s.stamp && s.stamp[Readable] == s.clients[0].event.seen.value + 256
    && s.stamp[Readable] == s.clients[0].event.readIn + age
    && Readable in Erased(s, ApplyClearSwap(s, 0))
  }

  lemma WrapRun(width: nat, age: nat, P: State -> bool) returns (s: State)
    requires width >= 32 && 1 <= age <= 256 && Closed(P) && P(New(width, 1))
    ensures P(s) && ErasesLaterRound(s, age)
  {
    FlagsOfConstants();
    Rounds(P, New(width, 1), 1);
    var s1 := SetNow(P, New(width, 1).(round := 1), READABLE);
    Rounds(P, s1, 256 - age);
    var s2, e := ReadNow(P, s1.(round := 257 - age));
    Rounds(P, s2, age);
    var s3 := SetNow(P, s2.(round := 257), READABLE);
    s := ClearNow(P, s3, e);
  }

  /**
   The `u8` tick comes round after 256 rounds, counted from the last set and not from the read: for
   every age from 1 to 256 some reachable clear erases readiness set that many rounds after the
   event it consumes was read.
   */
  lemma TickCanWrap(width: nat, age: nat)
    requires width >= 32 && 1 <= age <= 256
    ensures exists s :: Reachable(width, 1, s) && ErasesLaterRound(s, age)
  {
    var P := (s: State) => Reachable(width, 1, s);
    assert Closed(P) by {
      forall s, step | P(s) && Enabled(s, step) ensures P(Apply(s, step)) {
        Extend(width, 1, s, step);
      }
    }
    assert P(New(width, 1)) by {
      assert IsRun(New(width, 1), []) && After(New(width, 1), []) == New(width, 1);
    }
    var s := WrapRun(width, age, P);
  }

  lemma Extend(width: nat, clients: nat, s: State, step: Step)
    requires Reachable(width, clients, s) && Enabled(s, step)
    ensures Reachable(width, clients, Apply(s, step))
  {
    var steps :| IsRun(New(width, clients), steps) && s == After(New(width, clients), steps);
    assert Init(steps + [step]) == steps && Last(steps + [step]) == step;
    assert After(New(width, clients), steps + [step]) == Apply(s, step);
  }
}
