/**
 How a worker finds its next task: the queues, the capacity rule and the 31-tick global check of
 `src/lib.rs`, and the once-only insertion of `schedule_global` in `src/task.rs`.
 */
module Executor {
  import opened Basics
  import opened Sequences

  type TaskId = nat

  const TICKS: nat := 31
  const BUSY: nat := 16
  const GRAB: nat := 4

  // ---------------------------------------------------------------------------
  // One look for a task, as a function
  // ---------------------------------------------------------------------------

  datatype Choice = Choice(task: Option<TaskId>, local: seq<TaskId>, global: seq<TaskId>)

  /** Whether this iteration goes to the global queue. */
  predicate ChecksGlobal(counter: nat, local: seq<TaskId>) {
    (counter % TICKS == 0 && |local| <= BUSY) || local == []
  }

  function Look(counter: nat, local: seq<TaskId>, global: seq<TaskId>): Choice {
    var k := if ChecksGlobal(counter, local) then Min(GRAB, |global|) else 0;
    var queue := local + global[..k];
    if queue == [] then Choice(None, [], global[k..]) else Choice(Some(queue[0]), queue[1..], global[k..])
  }

  /** `counter.wrapping_add(1)` for a counter that wraps at `modulus`. */
  function Next(counter: nat, modulus: nat): (c: nat)
    requires counter < modulus
    ensures c < modulus
  {
    if counter + 1 < modulus then counter + 1 else 0
  }

  function Tasks(o: Option<TaskId>): multiset<TaskId> {
    if o.Some? then multiset{o.value} else multiset{}
  }

  /** Looking neither loses nor duplicates a task, and never outgrows the initial capacity. */
  lemma LookConserves(counter: nat, local: seq<TaskId>, global: seq<TaskId>, capacity: nat)
    ensures var c := Look(counter, local, global);
            multiset(local) + multiset(global) == Tasks(c.task) + multiset(c.local) + multiset(c.global)
    ensures |local| <= capacity && 32 <= capacity ==> |Look(counter, local, global).local| <= capacity
    ensures Distinct(global) ==> Distinct(Look(counter, local, global).global)
  {
    var k := if ChecksGlobal(counter, local) then Min(GRAB, |global|) else 0;
    var queue := local + global[..k];
    assert global == global[..k] + global[k..];
    assert multiset(queue) == multiset(local) + multiset(global[..k]);
    if queue != [] {
      assert queue == [queue[0]] + queue[1..];
    }
  }

  /** What was taken from the front of `queue` if `rest` is left. */
  function Front(queue: seq<TaskId>, rest: seq<TaskId>): seq<TaskId> {
    if |rest| <= |queue| then queue[..|queue| - |rest|] else []
  }

  function AsSeq(o: Option<TaskId>): seq<TaskId> {
    if o.Some? then [o.value] else []
  }

  /**
   A look takes tasks from the front of the global queue to the back of the local one and the task it
   runs from the local front. It takes up to four, all it can get if the local queue is empty, and none
   unless that is empty or the counter is at a multiple of 31 with at most 16 tasks local.
   */
  lemma LookKeepsOrder(counter: nat, local: seq<TaskId>, global: seq<TaskId>)
    ensures var c := Look(counter, local, global);
            var taken := Front(global, c.global);
            && taken + c.global == global && AsSeq(c.task) + c.local == local + taken && |taken| <= 4
            && (c.task.None? ==> local == [] && global == [])
            && (local == [] || (counter % 31 == 0 && |local| <= 16) ==> |taken| == Min(4, |global|))
            && (taken != [] ==> local == [] || (counter % 31 == 0 && |local| <= 16))
  {
    var k := if ChecksGlobal(counter, local) then Min(GRAB, |global|) else 0;
    var c := Look(counter, local, global);
    assert |global| - |c.global| == k && global[..k] + global[k..] == global;
    var queue := local + global[..k];
    assert queue != [] ==> [queue[0]] + queue[1..] == queue;
  }

  // ---------------------------------------------------------------------------
  // The objects
  // ---------------------------------------------------------------------------

  /** A task already linked is not linked again. */
  function Inserted(global: seq<TaskId>, task: TaskId): seq<TaskId> {
    if task in global then global else global + [task]
  }

  /** The shared part: the global queue, in which a task is linked at most once. */
  class Shared {
    var global: seq<TaskId>

    constructor ()
      ensures global == []
    {
      global := [];
    }

    /** The queue half of `schedule_global`. */
    method Insert(task: TaskId)
      requires Distinct(global)
      modifies this
      ensures Distinct(global)
      ensures global == Inserted(old(global), task)
      ensures old(global) <= global && task in global
      ensures task !in old(global) ==> |global| == |old(global)| + 1 && Last(global) == task
    {
      if task !in global {
        global := global + [task];
      }
    }
  }

  class Worker {
    const shared: Shared
    const capacity: nat
    const modulus: nat
    var local: seq<TaskId>
    var counter: nat

    ghost predicate Valid()
      reads this
    {
      |local| <= capacity && counter < modulus
    }

    constructor (shared: Shared, capacity: nat, modulus: nat)
      requires modulus > 0
      ensures Valid() && local == [] && counter == 0
      ensures this.shared == shared && this.capacity == capacity && this.modulus == modulus
    {
      this.shared, this.capacity, this.modulus, local, counter := shared, capacity, modulus, [], 0;
    }

    /** `schedule_local`: a full local queue spills into the global one instead of growing. */
    method ScheduleLocal(task: TaskId)
      requires Valid() && Distinct(shared.global)
      modifies this`local, shared
      ensures Valid() && Distinct(shared.global)
      ensures if |old(local)| < capacity then local == old(local) + [task] && shared.global == old(shared.global)
              else local == old(local) && shared.global == Inserted(old(shared.global), task)
    {
      if |local| < capacity {
        local := local + [task];
      } else {
        shared.Insert(task);
      }
    }

    method GetLocalTask() returns (task: Option<TaskId>)
      modifies this`local
      ensures if old(local) == [] then task == None && local == []
              else task == Some(old(local)[0]) && local == old(local)[1..]
    {
      if local == [] {
        task := None;
      } else {
        task := Some(local[0]);
        local := local[1..];
      }
    }

    method GetManyGlobalTasks() returns (task: Option<TaskId>)
      modifies this`local, shared
      ensures var queue := old(local) + old(shared.global)[..Min(4, |old(shared.global)|)];
              && shared.global == old(shared.global)[Min(4, |old(shared.global)|)..]
              && (if queue == [] then task == None && local == [] else task == Some(queue[0]) && local == queue[1..])
    {
      for i := 0 to GRAB
        invariant shared.global == old(shared.global)[Min(i, |old(shared.global)|)..]
        invariant local == old(local) + old(shared.global)[..Min(i, |old(shared.global)|)]
      {
        if shared.global != [] {
          local := local + [shared.global[0]];
          shared.global := shared.global[1..];
        }
      }
      task := GetLocalTask();
    }

    /** The head of the loop in `run_forever`: advance the counter and find a task. */
    method FindTask() returns (task: Option<TaskId>)
      requires Valid() && Distinct(shared.global) && 32 <= capacity
      modifies this`local, this`counter, shared
      ensures Valid() && Distinct(shared.global) && counter == Next(old(counter), modulus)
      ensures Choice(task, local, shared.global) == Look(counter, old(local), old(shared.global))
    {
      counter := if counter + 1 < modulus then counter + 1 else 0;
      LookConserves(counter, local, shared.global, capacity);
      assert shared.global[..0] == [] && shared.global[0..] == shared.global;
      assert local + shared.global[..0] == local;
      task := None;
      if counter % TICKS != 0 || |local| > BUSY {
        task := GetLocalTask();
      }
      if task == None {
        task := GetManyGlobalTasks();
      }
    }
  }

  // ---------------------------------------------------------------------------
  // Many iterations
  // ---------------------------------------------------------------------------

  /** What happens to the queues between two looks: `pushed` was scheduled locally, and the
      global queue now holds `global`. */
  datatype Gap = Gap(pushed: seq<TaskId>, global: seq<TaskId>)

  function CounterAt(counter: nat, modulus: nat, n: nat): (c: nat)
    requires counter < modulus
    ensures c < modulus
  {
    if n == 0 then counter else Next(CounterAt(counter, modulus, n - 1), modulus)
  }

  /** The local queue right before the look that follows the gap `gaps[n]`. */
  function LocalAt(local: seq<TaskId>, counter: nat, modulus: nat, gaps: seq<Gap>, n: nat): seq<TaskId>
    requires counter < modulus && n < |gaps|
    decreases n, 0
  {
    (if n == 0 then local else LookAt(local, counter, modulus, gaps, n - 1).local) + gaps[n].pushed
  }

  function LookAt(local: seq<TaskId>, counter: nat, modulus: nat, gaps: seq<Gap>, n: nat): Choice
    requires counter < modulus && n < |gaps|
    decreases n, 1
  {
    Look(CounterAt(counter, modulus, n + 1), LocalAt(local, counter, modulus, gaps, n), gaps[n].global)
  }

  /** While a queued task waits, each iteration runs exactly the one at the front. */
  lemma {:induction false} QueuedTasksMoveUp(local: seq<TaskId>, counter: nat, modulus: nat, gaps: seq<Gap>, n: nat)
    requires counter < modulus && n < |gaps| && n < |local|
    ensures local[n..] <= LocalAt(local, counter, modulus, gaps, n)
  {
    if n > 0 {
      QueuedTasksMoveUp(local, counter, modulus, gaps, n - 1);
      var before := LocalAt(local, counter, modulus, gaps, n - 1);
      assert before[0] == local[n - 1..][0];
      assert local[n..] == local[n - 1..][1..] <= before[1..];
      assert before[1..] <= LookAt(local, counter, modulus, gaps, n - 1).local;
    }
  }

  /** A task with `k` ahead of it is run by the (k+1)-th iteration, whatever is scheduled meanwhile. */
  lemma RunsInTurn(local: seq<TaskId>, counter: nat, modulus: nat, gaps: seq<Gap>, k: nat)
    requires counter < modulus && k < |local| && k < |gaps|
    ensures LookAt(local, counter, modulus, gaps, k).task == Some(local[k])
  {
    QueuedTasksMoveUp(local, counter, modulus, gaps, k);
    var before := LocalAt(local, counter, modulus, gaps, k);
    assert before[0] == local[k..][0];
  }

  lemma {:induction false} CounterAtIs(counter: nat, modulus: nat, n: nat)
    requires counter + n < modulus
    ensures CounterAt(counter, modulus, n) == counter + n
  {
    if n > 0 {
      CounterAtIs(counter, modulus, n - 1);
    }
  }

  /** Any 31 consecutive ticks hit a multiple of 31, even where the counter wraps. */
  lemma TickComesRound(counter: nat, modulus: nat) returns (n: nat)
    requires counter < modulus
    ensures 1 <= n <= 31 && CounterAt(counter, modulus, n) % 31 == 0
  {
    if counter + TICKS < modulus {
      n := TICKS - counter % TICKS;
      CounterAtIs(counter, modulus, n);
    } else {
      n := modulus - counter;
      CounterAtIs(counter, modulus, n - 1);
    }
  }

  /**
   Iteration `n` is a tick, and there the global queue is checked exactly if at most 16 tasks are
   local; a check takes up to four tasks from its front.
   */
  predicate TickAt(local: seq<TaskId>, counter: nat, modulus: nat, gaps: seq<Gap>, n: nat)
    requires counter < modulus && n < |gaps|
  {
    var queue, global := LocalAt(local, counter, modulus, gaps, n), gaps[n].global;
    && CounterAt(counter, modulus, n + 1) % 31 == 0
    && (ChecksGlobal(CounterAt(counter, modulus, n + 1), queue) <==> |queue| <= 16)
    && LookAt(local, counter, modulus, gaps, n).global
       == if |queue| <= 16 then global[Min(4, |global|)..] else global
  }

  /** Any 31 consecutive iterations contain one. */
  lemma GlobalCheckComesRound(local: seq<TaskId>, counter: nat, modulus: nat, gaps: seq<Gap>)
    requires counter < modulus && |gaps| == 31
    ensures exists n :: 0 <= n < 31 && TickAt(local, counter, modulus, gaps, n)
  {
    var n := TickComesRound(counter, modulus);
    assert CounterAt(counter, modulus, (n - 1) + 1) == CounterAt(counter, modulus, n);
    assert gaps[n - 1].global[0..] == gaps[n - 1].global;
    assert TickAt(local, counter, modulus, gaps, n - 1);
  }
}
