/**
 All workers together: the looks, local schedules and spills of `src/lib.rs` and the global
 schedules of `src/task.rs`, in every interleaving. A local queue belongs to its worker and the
 global queue is used under its lock, so each of these is one step.
 */
module Fleet {
  import opened Sequences
  import opened Executor

  datatype State = State(
    capacity: nat,
    modulus: nat,
    counters: seq<nat>,
    locals: seq<seq<TaskId>>,
    global: seq<TaskId>)

  datatype Step = Iterate(w: nat) | Local(w: nat, task: TaskId) | Global(task: TaskId)

  function New(workers: nat, capacity: nat, modulus: nat): State {
    State(capacity, modulus, seq(workers, _ => 0), seq(workers, _ => []), [])
  }

  predicate Enabled(s: State, step: Step) {
    && |s.counters| == |s.locals|
    && match step
       case Iterate(w) => w < |s.locals| && s.counters[w] < s.modulus
       case Local(w, _) => w < |s.locals|
       case Global(_) => true
  }

  /** What worker `w` finds in its next iteration. */
  function Finds(s: State, w: nat): Choice
    requires Enabled(s, Iterate(w))
  {
    Look(Next(s.counters[w], s.modulus), s.locals[w], s.global)
  }

  /** A schedule that goes to the global queue: from outside, or because the local queue is full. */
  predicate Spills(s: State, step: Step)
    requires Enabled(s, step)
  {
    step.Global? || (step.Local? && |s.locals[step.w]| >= s.capacity)
  }

  function Apply(s: State, step: Step): State
    requires Enabled(s, step)
  {
    if step.Iterate? then
      var c := Finds(s, step.w);
      s.(counters := s.counters[step.w := Next(s.counters[step.w], s.modulus)],
         locals := s.locals[step.w := c.local], global := c.global)
    else if Spills(s, step) then s.(global := Inserted(s.global, step.task))
    else s.(locals := s.locals[step.w := s.locals[step.w] + [step.task]])
  }

  // ---------------------------------------------------------------------------
  // The books
  // ---------------------------------------------------------------------------

  function ScheduledBy(step: Step): multiset<TaskId> {
    if step.Iterate? then multiset{} else multiset{step.task}
  }

  /** The task handed to `run`. */
  function RunBy(s: State, step: Step): multiset<TaskId>
    requires Enabled(s, step)
  {
    if step.Iterate? then Tasks(Finds(s, step.w).task) else multiset{}
  }

  /** An insertion into the global queue that finds the task linked already. */
  function DroppedBy(s: State, step: Step): multiset<TaskId>
    requires Enabled(s, step)
  {
    if Spills(s, step) && step.task in s.global then multiset{step.task} else multiset{}
  }

  function AllOf(locals: seq<seq<TaskId>>): multiset<TaskId> {
    if locals == [] then multiset{} else AllOf(Init(locals)) + multiset(Last(locals))
  }

  function Queued(s: State): multiset<TaskId> {
    AllOf(s.locals) + multiset(s.global)
  }

  type Bag = multiset<TaskId>

  lemma AddBoth(a: Bag, b: Bag, c: Bag, d: Bag, more: Bag)
    requires a + b == c + d
    ensures (a + more) + b == (c + more) + d
  {
    forall x: TaskId ensures ((a + more) + b)[x] == ((c + more) + d)[x] {
      assert (a + b)[x] == (c + d)[x];
    }
  }

  /** `all` and `local` before, `all'` and `local'` after, `run` taken out. */
  lemma Exchange(all: Bag, all': Bag, local: Bag, local': Bag, global: Bag, global': Bag, run: Bag)
    requires all' + local == all + local' && local + global == run + local' + global'
    ensures all + global == run + (all' + global')
  {
    forall x: TaskId ensures (all + global)[x] == (run + (all' + global'))[x] {
      assert (all' + local)[x] == (all + local')[x] && (local + global)[x] == (run + local' + global')[x];
    }
  }

  /** Two balanced stretches make one. */
  lemma Chain(q0: Bag, q1: Bag, q2: Bag, s: Bag, s': Bag, r: Bag, r': Bag, d: Bag, d': Bag)
    requires q0 + s == r + q1 + d && q1 + s' == r' + q2 + d'
    ensures q0 + (s + s') == (r + r') + q2 + (d + d')
  {
    forall x: TaskId ensures (q0 + (s + s'))[x] == ((r + r') + q2 + (d + d'))[x] {
      assert (q0 + s)[x] == (r + q1 + d)[x] && (q1 + s')[x] == (r' + q2 + d')[x];
    }
  }

  lemma {:induction false} AllOfUpdate(locals: seq<seq<TaskId>>, w: nat, queue: seq<TaskId>)
    requires w < |locals|
    ensures AllOf(locals[w := queue]) + multiset(locals[w]) == AllOf(locals) + multiset(queue)
  {
    if w == |locals| - 1 {
      assert Init(locals[w := queue]) == Init(locals);
    } else {
      AllOfUpdate(Init(locals), w, queue);
      assert Init(locals[w := queue]) == Init(locals)[w := queue] && Last(locals[w := queue]) == Last(locals);
      AddBoth(AllOf(Init(locals)[w := queue]), multiset(locals[w]), AllOf(Init(locals)), multiset(queue),
              multiset(Last(locals)));
    }
  }

  lemma {:induction false} AllOfEmpty(locals: seq<seq<TaskId>>)
    requires forall w :: 0 <= w < |locals| ==> locals[w] == []
    ensures AllOf(locals) == multiset{}
  {
    if locals != [] {
      AllOfEmpty(Init(locals));
    }
  }

  lemma IterateConserves(s: State, w: nat)
    requires Enabled(s, Iterate(w))
    ensures Queued(s) == RunBy(s, Iterate(w)) + Queued(Apply(s, Iterate(w)))
  {
    var c := Finds(s, w);
    LookConserves(Next(s.counters[w], s.modulus), s.locals[w], s.global, s.capacity);
    AllOfUpdate(s.locals, w, c.local);
    Exchange(AllOf(s.locals), AllOf(s.locals[w := c.local]), multiset(s.locals[w]), multiset(c.local),
             multiset(s.global), multiset(c.global), Tasks(c.task));
  }

  lemma SpillConserves(s: State, step: Step)
    requires Enabled(s, step) && Spills(s, step)
    ensures Queued(s) + multiset{step.task} == Queued(Apply(s, step)) + DroppedBy(s, step)
  {
    assert multiset(s.global + [step.task]) == multiset(s.global) + multiset{step.task};
  }

  lemma LocalConserves(s: State, step: Step)
    requires Enabled(s, step) && step.Local? && !Spills(s, step)
    ensures Queued(s) + multiset{step.task} == Queued(Apply(s, step))
  {
    var local := s.locals[step.w];
    AllOfUpdate(s.locals, step.w, local + [step.task]);
    Exchange(AllOf(s.locals[step.w := local + [step.task]]), AllOf(s.locals),
             multiset(local + [step.task]), multiset(local),
             multiset(s.global), multiset(s.global), multiset{step.task});
  }

  /** One step balances its books. */
  lemma StepConserves(s: State, step: Step)
    requires Enabled(s, step)
    ensures Queued(s) + ScheduledBy(step) == RunBy(s, step) + Queued(Apply(s, step)) + DroppedBy(s, step)
  {
    if step.Iterate? {
      IterateConserves(s, step.w);
    } else if Spills(s, step) {
      SpillConserves(s, step);
    } else {
      LocalConserves(s, step);
    }
  }

  // ---------------------------------------------------------------------------
  // Whole runs
  // ---------------------------------------------------------------------------

  predicate IsRun(s: State, steps: seq<Step>)
    decreases |steps|, 0
  {
    steps == [] || (IsRun(s, Init(steps)) && Enabled(After(s, Init(steps)), Last(steps)))
  }

  function After(s: State, steps: seq<Step>): State
    requires IsRun(s, steps)
    decreases |steps|, 1
  {
    if steps == [] then s else Apply(After(s, Init(steps)), Last(steps))
  }

  function Scheduled(steps: seq<Step>): multiset<TaskId> {
    if steps == [] then multiset{} else Scheduled(Init(steps)) + ScheduledBy(Last(steps))
  }

  function Run(s: State, steps: seq<Step>): multiset<TaskId>
    requires IsRun(s, steps)
  {
    if steps == [] then multiset{} else Run(s, Init(steps)) + RunBy(After(s, Init(steps)), Last(steps))
  }

  function Dropped(s: State, steps: seq<Step>): multiset<TaskId>
    requires IsRun(s, steps)
  {
    if steps == [] then multiset{} else Dropped(s, Init(steps)) + DroppedBy(After(s, Init(steps)), Last(steps))
  }

  lemma {:induction false} RunConserves(s: State, steps: seq<Step>)
    requires IsRun(s, steps)
    ensures Queued(s) + Scheduled(steps) == Run(s, steps) + Queued(After(s, steps)) + Dropped(s, steps)
  {
    if steps != [] {
      RunConserves(s, Init(steps));
      var t, last := After(s, Init(steps)), Last(steps);
      StepConserves(t, last);
      Chain(Queued(s), Queued(t), Queued(After(s, steps)), Scheduled(Init(steps)), ScheduledBy(last),
            Run(s, Init(steps)), RunBy(t, last), Dropped(s, Init(steps)), DroppedBy(t, last));
    }
  }

  /**
   Over every interleaving of any number of workers, what was scheduled is what was run, what is
   still queued, and the insertions dropped because the task was linked already.
   */
  lemma TasksConserved(workers: nat, capacity: nat, modulus: nat, steps: seq<Step>)
    requires IsRun(New(workers, capacity, modulus), steps)
    ensures var s := New(workers, capacity, modulus);
            Scheduled(steps) == Run(s, steps) + Queued(After(s, steps)) + Dropped(s, steps)
  {
    var s := New(workers, capacity, modulus);
    AllOfEmpty(s.locals);
    RunConserves(s, steps);
  }

  /** No local queue outgrows its initial capacity, and no task is linked twice. */
  ghost predicate Bounded(s: State) {
    && Distinct(s.global)
    && (forall w :: 0 <= w < |s.locals| ==> |s.locals[w]| <= s.capacity)
  }

  lemma {:induction false} RunBounded(workers: nat, capacity: nat, modulus: nat, steps: seq<Step>)
    requires 32 <= capacity && IsRun(New(workers, capacity, modulus), steps)
    ensures var s := After(New(workers, capacity, modulus), steps); s.capacity == capacity && Bounded(s)
  {
    if steps != [] {
      RunBounded(workers, capacity, modulus, Init(steps));
      var s, step := After(New(workers, capacity, modulus), Init(steps)), Last(steps);
      if step.Iterate? {
        LookConserves(Next(s.counters[step.w], s.modulus), s.locals[step.w], s.global, capacity);
      }
    }
  }

  // ---------------------------------------------------------------------------
  // Order
  // ---------------------------------------------------------------------------

  /** What the step links into the global queue: a spill or an outside schedule of an unlinked task. */
  function LinkedBy(s: State, step: Step): seq<TaskId>
    requires Enabled(s, step)
  {
    if (step.Global? || (step.Local? && |s.locals[step.w]| >= s.capacity)) && step.task !in s.global then [step.task]
    else []
  }

  /** What it takes from the front of the global queue. */
  function TakenBy(s: State, step: Step): seq<TaskId>
    requires Enabled(s, step)
  {
    if step.Iterate? then Front(s.global, Apply(s, step).global) else []
  }

  /** What enters the local queue of `w`. */
  function EntersBy(s: State, step: Step, w: nat): seq<TaskId>
    requires Enabled(s, step)
  {
    if step == Iterate(w) then TakenBy(s, step)
    else if step.Local? && step.w == w && |s.locals[w]| < s.capacity then [step.task]
    else []
  }

  /** What `w` hands to `run`. */
  function RunOnBy(s: State, step: Step, w: nat): seq<TaskId>
    requires Enabled(s, step)
  {
    if step == Iterate(w) then AsSeq(Finds(s, w).task) else []
  }

  lemma StepKeepsGlobalOrder(s: State, step: Step)
    requires Enabled(s, step)
    ensures s.global + LinkedBy(s, step) == TakenBy(s, step) + Apply(s, step).global
  {
    if step.Iterate? {
      LookKeepsOrder(Next(s.counters[step.w], s.modulus), s.locals[step.w], s.global);
    }
  }

  lemma StepKeepsLocalOrder(s: State, step: Step, w: nat)
    requires Enabled(s, step) && w < |s.locals|
    ensures |Apply(s, step).locals| == |s.locals|
    ensures s.locals[w] + EntersBy(s, step, w) == RunOnBy(s, step, w) + Apply(s, step).locals[w]
  {
    if step == Iterate(w) {
      LookKeepsOrder(Next(s.counters[w], s.modulus), s.locals[w], s.global);
    }
  }

  function Linked(s: State, steps: seq<Step>): seq<TaskId>
    requires IsRun(s, steps)
  {
    if steps == [] then [] else Linked(s, Init(steps)) + LinkedBy(After(s, Init(steps)), Last(steps))
  }

  function Taken(s: State, steps: seq<Step>): seq<TaskId>
    requires IsRun(s, steps)
  {
    if steps == [] then [] else Taken(s, Init(steps)) + TakenBy(After(s, Init(steps)), Last(steps))
  }

  function Entered(s: State, steps: seq<Step>, w: nat): seq<TaskId>
    requires IsRun(s, steps)
  {
    if steps == [] then [] else Entered(s, Init(steps), w) + EntersBy(After(s, Init(steps)), Last(steps), w)
  }

  function RunOn(s: State, steps: seq<Step>, w: nat): seq<TaskId>
    requires IsRun(s, steps)
  {
    if steps == [] then [] else RunOn(s, Init(steps), w) + RunOnBy(After(s, Init(steps)), Last(steps), w)
  }

  /**
   First in, first out, over every interleaving: the tasks linked into the global queue are, in order,
   those taken from it followed by those still in it.
   */
  lemma {:induction false} GlobalFifo(workers: nat, capacity: nat, modulus: nat, steps: seq<Step>)
    requires IsRun(New(workers, capacity, modulus), steps)
    ensures var s := New(workers, capacity, modulus); Linked(s, steps) == Taken(s, steps) + After(s, steps).global
  {
    if steps != [] {
      GlobalFifo(workers, capacity, modulus, Init(steps));
      StepKeepsGlobalOrder(After(New(workers, capacity, modulus), Init(steps)), Last(steps));
    }
  }

  /** The same for each worker: what entered its local queue is what it ran followed by what it has. */
  lemma {:induction false} LocalFifo(workers: nat, capacity: nat, modulus: nat, steps: seq<Step>, w: nat)
    requires IsRun(New(workers, capacity, modulus), steps) && w < workers
    ensures var s := New(workers, capacity, modulus);
            && |After(s, steps).locals| == workers
            && Entered(s, steps, w) == RunOn(s, steps, w) + After(s, steps).locals[w]
  {
    if steps != [] {
      LocalFifo(workers, capacity, modulus, Init(steps), w);
      StepKeepsLocalOrder(After(New(workers, capacity, modulus), Init(steps)), Last(steps), w);
    }
  }

  function Iterations(steps: seq<Step>, w: nat): nat {
    if steps == [] then 0 else Iterations(Init(steps), w) + if Last(steps) == Iterate(w) then 1 else 0
  }

  /** A worker's counter counts its own iterations, wrapping at the modulus. */
  lemma {:induction false} CountersAdvance(workers: nat, capacity: nat, modulus: nat, steps: seq<Step>, w: nat)
    requires IsRun(New(workers, capacity, modulus), steps) && w < workers && modulus > 0
    ensures var s := After(New(workers, capacity, modulus), steps);
            && |s.counters| == workers && s.modulus == modulus
            && s.counters[w] == CounterAt(0, modulus, Iterations(steps, w))
  {
    if steps != [] {
      CountersAdvance(workers, capacity, modulus, Init(steps), w);
    }
  }
}
