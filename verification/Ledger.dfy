/**
 The task queues of `Parking` are those of `Executor`: its workers look for tasks as
 `run_forever` of `src/lib.rs` does, and every run of the parking protocol conserves tasks.
 */
module Ledger {
  import opened Sequences
  import opened Parking
  import FL = Fleet

  /** A tick, or any other value of the counter. */
  function CounterFor(move: WorkerStep): nat { if move.LookGlobal? then 0 else 1 }

  predicate Looks(step: Step) {
    step.OfWorker? && (step.move.TakeLocal? || step.move.LookGlobal?)
  }

  function Found(s: State, step: Step): EX.Choice
    requires Enabled(s, step) && Looks(step)
  {
    EX.Look(CounterFor(step.move), s.locals[step.w], s.global)
  }

  /**
   Taking a local task and looking at the global queue are one look of `run_forever`, for some value
   of its counter: the same task found, the same queues left, and the worker runs exactly if there
   was one.
   */
  lemma WorkerLooksAsExecutor(s: State, w: nat, move: WorkerStep)
    requires Enabled(s, OfWorker(w, move)) && (move.TakeLocal? || move.LookGlobal?)
    ensures exists counter ::
              var c, t := EX.Look(counter, s.locals[w], s.global), Apply(s, OfWorker(w, move));
              && t.locals == s.locals[w := c.local] && t.global == c.global
              && t.workers == s.workers[w := if c.task.Some? then Running else FoundNothing]
  {
    LookIsFound(s, OfWorker(w, move));
  }

  lemma LookIsFound(s: State, step: Step)
    requires Enabled(s, step) && Looks(step)
    ensures var c, t := Found(s, step), Apply(s, step);
            && t.locals == s.locals[step.w := c.local] && t.global == c.global
            && t.workers == s.workers[step.w := if c.task.Some? then Running else FoundNothing]
  {
    assert s.global[..0] == [] && s.global[0..] == s.global;
    assert s.locals[step.w] + [] == s.locals[step.w];
  }

  // ---------------------------------------------------------------------------
  // The books
  // ---------------------------------------------------------------------------

  function ScheduledBy(s: State, step: Step): multiset<TaskId>
    requires Enabled(s, step)
  {
    if step.OfWorker? && step.move.ScheduleLocal? then multiset{step.move.task}
    else if step.OfCall? && step.action.Insert? then multiset{s.calls[step.c].task}
    else multiset{}
  }

  function RunBy(s: State, step: Step): multiset<TaskId>
    requires Enabled(s, step)
  {
    if Looks(step) then EX.Tasks(Found(s, step).task) else multiset{}
  }

  /** An insertion that finds its task linked already. */
  function DroppedBy(s: State, step: Step): multiset<TaskId>
    requires Enabled(s, step)
  {
    if step.OfCall? && step.action.Insert? && s.calls[step.c].task in s.global then multiset{s.calls[step.c].task}
    else multiset{}
  }

  function Queued(s: State): multiset<TaskId> {
    FL.AllOf(s.locals) + multiset(s.global)
  }

  lemma LookConserves(s: State, step: Step)
    requires Enabled(s, step) && Looks(step)
    ensures Queued(s) == RunBy(s, step) + Queued(Apply(s, step))
  {
    var c, local := Found(s, step), s.locals[step.w];
    LookIsFound(s, step);
    EX.LookConserves(CounterFor(step.move), local, s.global, 0);
    FL.AllOfUpdate(s.locals, step.w, c.local);
    FL.Exchange(FL.AllOf(s.locals), FL.AllOf(s.locals[step.w := c.local]), multiset(local), multiset(c.local),
                multiset(s.global), multiset(c.global), EX.Tasks(c.task));
  }

  lemma ScheduleConserves(s: State, w: nat, task: TaskId)
    requires Enabled(s, OfWorker(w, ScheduleLocal(task)))
    ensures Queued(s) + multiset{task} == Queued(Apply(s, OfWorker(w, ScheduleLocal(task))))
  {
    var local := s.locals[w];
    FL.AllOfUpdate(s.locals, w, local + [task]);
    FL.Exchange(FL.AllOf(s.locals[w := local + [task]]), FL.AllOf(s.locals), multiset(local + [task]),
                multiset(local), multiset(s.global), multiset(s.global), multiset{task});
  }

  lemma InsertConserves(s: State, c: nat)
    requires Enabled(s, OfCall(c, Insert))
    ensures Queued(s) + multiset{s.calls[c].task}
         == Queued(Apply(s, OfCall(c, Insert))) + DroppedBy(s, OfCall(c, Insert))
  {
    assert multiset(s.global + [s.calls[c].task]) == multiset(s.global) + multiset{s.calls[c].task};
  }

  /** Every other step leaves the queues alone. */
  lemma OthersKeepQueues(s: State, step: Step)
    requires Enabled(s, step) && !Looks(step)
    requires step.OfWorker? ==> !step.move.ScheduleLocal?
    requires step.OfCall? ==> !step.action.Insert?
    ensures Apply(s, step).locals == s.locals && Apply(s, step).global == s.global
  {
  }

  lemma StepConserves(s: State, step: Step)
    requires Enabled(s, step)
    ensures Queued(s) + ScheduledBy(s, step) == RunBy(s, step) + Queued(Apply(s, step)) + DroppedBy(s, step)
  {
    if Looks(step) {
      LookConserves(s, step);
    } else if step.OfWorker? && step.move.ScheduleLocal? {
      ScheduleConserves(s, step.w, step.move.task);
    } else if step.OfCall? && step.action.Insert? {
      InsertConserves(s, step.c);
    } else {
      OthersKeepQueues(s, step);
    }
  }

  ghost function Scheduled(s: State, steps: seq<Step>): multiset<TaskId>
    requires IsRun(s, steps)
  {
    if steps == [] then multiset{} else Scheduled(s, Init(steps)) + ScheduledBy(After(s, Init(steps)), Last(steps))
  }

  ghost function Run(s: State, steps: seq<Step>): multiset<TaskId>
    requires IsRun(s, steps)
  {
    if steps == [] then multiset{} else Run(s, Init(steps)) + RunBy(After(s, Init(steps)), Last(steps))
  }

  ghost function Dropped(s: State, steps: seq<Step>): multiset<TaskId>
    requires IsRun(s, steps)
  {
    if steps == [] then multiset{} else Dropped(s, Init(steps)) + DroppedBy(After(s, Init(steps)), Last(steps))
  }

  lemma {:induction false} RunConserves(s: State, steps: seq<Step>)
    requires IsRun(s, steps)
    ensures Queued(s) + Scheduled(s, steps) == Run(s, steps) + Queued(After(s, steps)) + Dropped(s, steps)
  {
    if steps != [] {
      RunConserves(s, Init(steps));
      var t, last := After(s, Init(steps)), Last(steps);
      StepConserves(t, last);
      FL.Chain(Queued(s), Queued(t), Queued(Apply(t, last)), Scheduled(s, Init(steps)), ScheduledBy(t, last),
               Run(s, Init(steps)), RunBy(t, last), Dropped(s, Init(steps)), DroppedBy(t, last));
    }
  }

  /**
   Over every run of the parking protocol, what was scheduled is what was run, what is still queued,
   and the insertions dropped because the task was linked already.
   */
  lemma TasksConserved(n: nat, calls: nat, steps: seq<Step>)
    requires IsRun(New(n, calls), steps)
    ensures var s := New(n, calls);
            Scheduled(s, steps) == Run(s, steps) + Queued(After(s, steps)) + Dropped(s, steps)
  {
    var s := New(n, calls);
    FL.AllOfEmpty(s.locals);
    RunConserves(s, steps);
  }
}
