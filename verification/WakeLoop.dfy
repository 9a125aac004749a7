/**
 `ScheduledIo::wake` of `src/io/mod.rs` by itself: the loop that empties the waiter list in
 batches of 32, what it has called after any number of turns, and when it returns.
 */
module WakeLoop {
  import opened Basics
  import opened ReadyFlags

  datatype Waiter = Waiter(waker: nat, interest: Interest)

  const BATCH: nat := 32

  /** The loop between two turns: what is listed, what is collected, what has been called. */
  datatype Loop = Loop(list: seq<Waiter>, wakers: seq<nat>, calls: seq<nat>, done: bool)

  /** One turn. The cursor is not advanced past a waiter that is not satisfied. */
  function Turn(ready: nat, l: Loop): Loop {
    if l.done then l
    else if |l.wakers| >= BATCH then l.(wakers := [], calls := l.calls + l.wakers)  // unlock, call them, lock again
    else if l.list == [] then l.(done := true)
    else if Satisfies(ready, l.list[0].interest) then l.(list := l.list[1..], wakers := l.wakers + [l.list[0].waker])
    else l
  }

  function Turns(ready: nat, l: Loop, n: nat): Loop {
    if n == 0 then l else Turn(ready, Turns(ready, l, n - 1))
  }

  predicate AllSatisfied(ready: nat, list: seq<Waiter>) {
    forall i :: 0 <= i < |list| ==> Satisfies(ready, list[i].interest)
  }

  function Wakers(list: seq<Waiter>): seq<nat> {
    seq(|list|, i requires 0 <= i < |list| => list[i].waker)
  }

  /** Everything that was called, is about to be, or is still listed, in order. */
  function Everyone(l: Loop): seq<nat> {
    l.calls + l.wakers + Wakers(l.list)
  }

  lemma TurnConserves(ready: nat, l: Loop)
    ensures Everyone(Turn(ready, l)) == Everyone(l)
    ensures |l.wakers| <= BATCH ==> |Turn(ready, l).wakers| <= BATCH
    ensures (l.done ==> l.list == []) ==> (Turn(ready, l).done ==> Turn(ready, l).list == [])
  {
    if l.list != [] {
      assert Wakers(l.list) == [l.list[0].waker] + Wakers(l.list[1..]);
    }
  }

  /** No number of turns loses, repeats or reorders a waker, and only an empty list ends the loop. */
  lemma {:induction false} TurnsConserve(ready: nat, l: Loop, n: nat)
    requires !l.done
    ensures var m := Turns(ready, l, n);
            && Everyone(m) == Everyone(l)
            && (|l.wakers| <= BATCH ==> |m.wakers| <= BATCH)
            && (m.done ==> m.list == [])
  {
    if n > 0 {
      TurnsConserve(ready, l, n - 1);
      TurnConserves(ready, Turns(ready, l, n - 1));
    }
  }

  lemma {:induction false} TurnsAdd(ready: nat, l: Loop, m: nat, n: nat)
    ensures Turns(ready, Turns(ready, l, m), n) == Turns(ready, l, m + n)
  {
    if n > 0 {
      TurnsAdd(ready, l, m, n - 1);
    }
  }

  lemma {:induction false} UnsatisfiedKeepsLooping(ready: nat, l: Loop, n: nat)
    requires !l.done && !AllSatisfied(ready, l.list)
    ensures !Turns(ready, l, n).done && !AllSatisfied(ready, Turns(ready, l, n).list)
  {
    if n > 0 {
      UnsatisfiedKeepsLooping(ready, l, n - 1);
      var m := Turns(ready, l, n - 1);
      var i :| 0 <= i < |m.list| && !Satisfies(ready, m.list[i].interest);
      if i > 0 {
        assert m.list[i] == m.list[1..][i - 1];
      }
    }
  }

  /** How many turns are left at most if every waiter is satisfied. */
  function Left(l: Loop): nat {
    if l.done then 0 else 2 * |l.list| + (if |l.wakers| >= BATCH then 2 else 1)
  }

  lemma {:induction false} SatisfiedReturns(ready: nat, l: Loop, n: nat)
    requires AllSatisfied(ready, l.list)
    ensures Left(Turns(ready, l, n)) <= (if n <= Left(l) then Left(l) - n else 0)
    ensures AllSatisfied(ready, Turns(ready, l, n).list)
    ensures n >= Left(l) ==> Turns(ready, l, n).done
  {
    if n > 0 {
      SatisfiedReturns(ready, l, n - 1);
    }
  }

  /**
   Without concurrent registrations `wake` returns exactly when the event satisfies every listed
   waiter; otherwise it turns for ever with the lock held.
   */
  lemma WakeReturnsIffAllSatisfied(ready: nat, list: seq<Waiter>, wakers: seq<nat>, calls: seq<nat>)
    ensures (exists n :: Turns(ready, Loop(list, wakers, calls, false), n).done) <==> AllSatisfied(ready, list)
  {
    var l := Loop(list, wakers, calls, false);
    if AllSatisfied(ready, list) {
      SatisfiedReturns(ready, l, Left(l));
    } else {
      forall n: nat ensures !Turns(ready, l, n).done {
        UnsatisfiedKeepsLooping(ready, l, n);
      }
    }
  }

  // ---------------------------------------------------------------------------
  // The object
  // ---------------------------------------------------------------------------

  function Taken(slot: Option<nat>, concerned: bool): seq<nat> {
    if concerned && slot.Some? then [slot.value] else []
  }

  function Kept(slot: Option<nat>, concerned: bool): Option<nat> {
    if concerned then None else slot
  }

  /**
   Because `wake` need not return, its loops are watched for a number of turns: their contracts say
   where the object is after any number, with `done` if the loop has ended by then.
   */
  class ScheduledIo {
    var reader: Option<nat>
    var writer: Option<nat>
    var list: seq<Waiter>
    var locked: bool
    /** Every waker called so far, in order. */
    var calls: seq<nat>

    constructor ()
      ensures reader == None && writer == None && list == [] && !locked && calls == []
    {
      reader, writer, list, locked, calls := None, None, [], false, [];
    }

    /** Call the collected wakers; the waiters lock must not be held. */
    method Drain(wakers: seq<nat>)
      requires !locked && |wakers| <= 32
      modifies this`calls
      ensures calls == old(calls) + wakers
    {
      calls := calls + wakers;
    }

    /** The inner loop: move waiters into the batch until it is full or the list is empty. */
    method Collect(ready: nat, start: seq<nat>, turns: nat) returns (wakers: seq<nat>, empty: bool, used: nat)
      requires locked && |start| <= BATCH
      modifies this`list
      ensures used <= turns && |wakers| <= BATCH
      ensures Loop(list, wakers, calls, empty) == Turns(ready, Loop(old(list), start, calls, false), used)
      ensures used < turns ==> empty || |wakers| == BATCH
    {
      wakers, empty, used := start, false, 0;
      while used < turns && |wakers| < BATCH && !empty
        invariant used <= turns && |wakers| <= BATCH
        invariant Loop(list, wakers, calls, empty) == Turns(ready, Loop(old(list), start, calls, false), used)
      {
        if list == [] {
          empty := true;
        } else if Satisfies(ready, list[0].interest) {
          wakers := wakers + [list[0].waker];
          list := list[1..];
        }
        used := used + 1;
      }
    }

    /** One pass of the outer loop: fill the batch, then unlock around the calls of its wakers. */
    method Pass(ready: nat, start: seq<nat>, turns: nat) returns (wakers: seq<nat>, empty: bool, used: nat)
      requires locked && |start| <= BATCH && turns > 0
      modifies this`list, this`locked, this`calls
      ensures locked && |wakers| <= BATCH && 0 < used <= turns
      ensures Loop(list, wakers, calls, empty) == Turns(ready, Loop(old(list), start, old(calls), false), used)
    {
      wakers, empty, used := Collect(ready, start, turns);
      if used < turns && !empty {
        locked := false;
        Drain(wakers);
        locked := true;
        wakers := [];
        used := used + 1;
      }
    }

    /** The outer loop. */
    method WakeList(ready: nat, start: seq<nat>, turns: nat) returns (wakers: seq<nat>, done: bool)
      requires locked && |start| <= BATCH
      modifies this`list, this`locked, this`calls
      ensures locked && |wakers| <= BATCH
      ensures Loop(list, wakers, calls, done) == Turns(ready, Loop(old(list), start, old(calls), false), turns)
    {
      ghost var first := Loop(list, start, calls, false);
      wakers, done := start, false;
      var n := 0;
      while n < turns && !done
        invariant locked && n <= turns && |wakers| <= BATCH
        invariant Loop(list, wakers, calls, done) == Turns(ready, first, n)
        decreases turns - n
      {
        var used;
        wakers, done, used := Pass(ready, wakers, turns - n);
        TurnsAdd(ready, first, n, used);
        n := n + used;
      }
      DoneStays(ready, first, n, turns);
    }

    /**
     Whatever is listed and however long it is watched: slots the event concerns come first, waiters
     follow in list order, nobody is called twice or left out, and never under the lock. It returns
     only if every listed waiter is satisfied, and then within two turns per waiter.
     */
    method Wake(ready: nat, turns: nat) returns (pending: seq<nat>, done: bool)
      requires !locked
      modifies this
      ensures locked == !done
      ensures reader == Kept(old(reader), IsReadable(ready)) && writer == Kept(old(writer), IsWritable(ready))
      ensures calls + pending + Wakers(list)
              == old(calls) + (Taken(old(reader), IsReadable(ready)) + Taken(old(writer), IsWritable(ready)))
                 + Wakers(old(list))
      ensures done ==> list == [] && pending == [] && AllSatisfied(ready, old(list))
      ensures AllSatisfied(ready, old(list)) && turns > 2 * |old(list)| ==> done
    {
      locked := true;
      var wakers := [];
      if IsReadable(ready) {
        wakers := Taken(reader, true);
        reader := None;
      }
      if IsWritable(ready) {
        wakers := wakers + Taken(writer, true);
        writer := None;
      }
      ghost var first := Loop(list, wakers, calls, false);
      assert wakers == Taken(old(reader), IsReadable(ready)) + Taken(old(writer), IsWritable(ready));
      pending, done := WakeList(ready, wakers, turns);
      WatchedTurns(ready, first, turns);
      if done {
        locked := false;
        Drain(pending);
        pending := [];
      }
    }
  }

  /** What `turns` turns from a fresh loop amount to. */
  lemma WatchedTurns(ready: nat, l: Loop, turns: nat)
    requires !l.done && |l.wakers| < BATCH
    ensures var m := Turns(ready, l, turns);
            && Everyone(m) == Everyone(l)
            && (m.done ==> m.list == [] && AllSatisfied(ready, l.list))
            && (AllSatisfied(ready, l.list) && turns > 2 * |l.list| ==> m.done)
  {
    TurnsConserve(ready, l, turns);
    if AllSatisfied(ready, l.list) {
      SatisfiedReturns(ready, l, turns);
    } else {
      UnsatisfiedKeepsLooping(ready, l, turns);
    }
  }

  lemma {:induction false} DoneStays(ready: nat, l: Loop, m: nat, n: nat)
    requires m <= n && (m == n || Turns(ready, l, m).done)
    ensures Turns(ready, l, n) == Turns(ready, l, m)
  {
    if m < n {
      DoneStays(ready, l, m, n - 1);
    }
  }
}
