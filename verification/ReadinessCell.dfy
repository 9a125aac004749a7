/**
 The loop of `set_readiness` in `src/io/mod.rs` as a method, with the interference of other
 threads made explicit, and `try_io` of `src/io/registration.rs` on top of it.
 */
module ReadinessCell {
  import opened ReadyFlags
  import opened ReadinessWord

  /** The word an attempt stores if it wins. */
  function Next(width: nat, op: Op, word: nat): nat
    requires width >= 32 && op.tick < 256 && (op.Set? ==> op.ready < 16)
  {
    AttemptEffect(width, op, word);
    Attempt(width, op, word).value
  }

  /** What the operation makes of a word it finds. */
  function Effect(width: nat, op: Op, word: nat): nat
    requires width >= 32 && op.tick < 256 && (op.Set? ==> op.ready < 16)
  {
    if GivesUp(width, op, word) then word else Next(width, op, word)
  }

  /** What it stores into a word it finds, if anything. */
  function Stores(width: nat, op: Op, word: nat): seq<nat>
    requires width >= 32 && op.tick < 256 && (op.Set? ==> op.ready < 16)
  {
    if GivesUp(width, op, word) then [] else [Effect(width, op, word)]
  }

  lemma TakeOneMore(others: seq<nat>, i: nat)
    requires i < |others|
    ensures others[..i] + [others[i]] == others[..i + 1]
  {
  }

  /** The word after the first `i` stores of others. */
  function Found(first: nat, others: seq<nat>, i: nat): nat
    requires i <= |others|
  {
    if i == 0 then first else others[i - 1]
  }

  /** What the I/O closure answers. */
  datatype IoResult = Done(value: int) | WouldBlock | Failed(error: int)

  class Cell {
    const width: nat
    var word: nat
    /** Every value stored into the word, by whomever, in order. */
    ghost var log: seq<nat>

    constructor (width: nat)
      ensures this.width == width && word == 0 && log == []
    {
      this.width, word, log := width, 0, [];
    }

    method Store(value: nat)
      modifies this
      ensures word == value && log == old(log) + [value]
    {
      word := value;
      log := log + [value];
    }

    /** Stores only into the value it expects. */
    method CompareExchange(current: nat, next: nat) returns (ok: bool)
      modifies this
      ensures ok == (old(word) == current)
      ensures if ok then word == next && log == old(log) + [next] else word == old(word) && log == old(log)
    {
      ok := word == current;
      if ok {
        Store(next);
      }
    }

    /**
     `others[i]` is what another thread stores between this call's `i`-th look at the word and
     the compare-and-swap that follows it. However the race goes, the word sees the first `k` of
     those stores and then, right on top of the last of them, this call's operation: no store of
     another thread is lost, and the operation happens once or gives up. It stops short of the last
     store only by giving up or where a store changed nothing, so that the swap went through.
     */
    method SetReadiness(op: Op, others: seq<nat>) returns (ghost k: nat)
      requires width >= 32 && op.tick < 256 && (op.Set? ==> op.ready < 16)
      modifies this
      ensures k <= |others|
      ensures log == old(log) + others[..k] + Stores(width, op, Found(old(word), others, k))
      ensures word == Effect(width, op, Found(old(word), others, k))
      ensures || k == |others|
              || GivesUp(width, op, Found(old(word), others, k))
              || (k > 0 && others[k - 1] == Found(old(word), others, k - 1))
    {
      var current := word;
      var i := 0;
      while !GivesUp(width, op, current)
        invariant i <= |others| && word == current == Found(old(word), others, i)
        invariant log == old(log) + others[..i]
        decreases |others| - i
      {
        var next := Next(width, op, current);
        if i < |others| {
          TakeOneMore(others, i);
          Store(others[i]);
          i := i + 1;
        }
        var ok := CompareExchange(current, next);
        if ok {
          return i;
        }
        current := word;
      }
      k := i;
    }

    /**
     `try_io`, undisturbed: without readiness the operation is not attempted; if the attempt would
     block, exactly the unclosed readiness it relied on is cleared.
     */
    method TryIo(i: Interest, answer: IoResult) returns (r: IoResult)
      requires width >= 32
      modifies this
      ensures var ready := Flags(ReadyOf(width, old(word), i));
              && (ready == {} ==> r == WouldBlock && word == old(word))
              && (ready != {} ==> r == answer)
              && (ready != {} && answer.WouldBlock? ==>
                    FlagsOf(width, word) == FlagsOf(width, old(word)) - (ready - CLOSED))
              && (!answer.WouldBlock? ==> word == old(word))
      ensures TickOf(width, word) == TickOf(width, old(word))
      ensures GenerationOf(width, word) == GenerationOf(width, old(word))
    {
      var tick, ready := TickOf(width, word), ReadyOf(width, word, i);
      ReadyOfFlags(width, word, i);
      if ready == EMPTY {
        return WouldBlock;
      }
      r := answer;
      if answer.WouldBlock? {
        FieldsBelow(width, word);
        ClearSparesClosed(width, tick, ready);
        AttemptEffect(width, ClearOf(width, tick, ready), word);
        var k := SetReadiness(ClearOf(width, tick, ready), []);
      }
    }
  }
}
