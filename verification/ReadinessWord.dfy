/**
 The packed readiness word of `src/io/mod.rs`: its layout, what one attempt of `set_readiness`
 makes of it, what reuse of the slab entry leaves of it, and what `ready_event` reads from it.
 */
module ReadinessWord {
  import opened Basics
  import opened Bits
  import opened ReadyFlags

  // ---------------------------------------------------------------------------
  // Layout
  // ---------------------------------------------------------------------------

  // | shutdown 1 | generation 7 | driver tick 8 | readiness 16 |
  const SHUTDOWN_BIT: nat := 31

  function ReadinessField(width: nat): Pack requires width >= 32 { LayoutTotals(); Chain(width, [16]) }
  function TickField(width: nat): Pack requires width >= 32 { LayoutTotals(); Chain(width, [16, 8]) }
  function GenerationField(width: nat): Pack requires width >= 32 { LayoutTotals(); Chain(width, [16, 8, 7]) }
  function ShutdownField(width: nat): Pack requires width >= 32 { LayoutTotals(); Chain(width, [16, 8, 7, 1]) }

  lemma LayoutTotals()
    ensures Total([]) == 0 && Total([16]) == 16 && Total([16, 8]) == 24
    ensures Total([16, 8, 7]) == 31 && Total([16, 8, 7, 1]) == 32
    ensures [16][..0] == [] && [16, 8][..1] == [16] && [16, 8, 7][..2] == [16, 8] && [16, 8, 7, 1][..3] == [16, 8, 7]
  {
    assert Total([16]) == Total([16][..0]) + 16;
    assert Total([16, 8]) == Total([16, 8][..1]) + 8;
    assert Total([16, 8, 7]) == Total([16, 8, 7][..2]) + 7;
    assert Total([16, 8, 7, 1]) == Total([16, 8, 7, 1][..3]) + 1;
  }

  lemma Layout(width: nat)
    requires width >= 32
    ensures IsField(width, ReadinessField(width), 0, 16)
    ensures IsField(width, TickField(width), 16, 8)
    ensures IsField(width, GenerationField(width), 24, 7)
    ensures IsField(width, ShutdownField(width), 31, 1)
  {
    LayoutTotals();
  }

  function FlagsOf(width: nat, word: nat): set<Flag> requires width >= 32 {
    Flags(FromWord(Unpack(ReadinessField(width), word)))
  }

  function TickOf(width: nat, word: nat): nat requires width >= 32 { Unpack(TickField(width), word) }

  function GenerationOf(width: nat, word: nat): nat requires width >= 32 { Unpack(GenerationField(width), word) }

  function ShutdownOf(width: nat, word: nat): nat requires width >= 32 { Unpack(ShutdownField(width), word) }

  // ---------------------------------------------------------------------------
  // One attempt of set_readiness
  // ---------------------------------------------------------------------------

  /** `clear_readiness` turns into `Clear` with the closed flags taken out of its mask. */
  datatype Op = Set(tick: nat, ready: nat) | Clear(tick: nat, mask: nat)

  function ClearOf(width: nat, tick: nat, ready: nat): Op {
    Clear(tick, Minus(width, Minus(width, ready, READ_CLOSED), WRITE_CLOSED))
  }

  function NewReady(width: nat, op: Op, current: nat): nat {
    var ready := FromWord(current);
    match op
    case Set(_, r) => Or(ready, r)
    case Clear(_, m) => Minus(width, ready, m)
  }

  /** The word an attempt tries to store, or `None` where `pack` would panic. */
  function Assemble(width: nat, generation: nat, tick: nat, ready: nat): Option<nat>
    requires width >= 32
  {
    Layout(width);
    FieldMax(width, TickField(width), 16, 8);
    FieldMax(width, GenerationField(width), 24, 7);
    match PackIn(width, TickField(width), tick, ready)
    case None => None
    case Some(packed) => PackIn(width, GenerationField(width), generation, packed)
  }

  function Attempt(width: nat, op: Op, current: nat): Option<nat>
    requires width >= 32
  {
    Assemble(width, GenerationOf(width, current), op.tick, NewReady(width, op, current))
  }

  /** A clear whose tick is stale gives up. */
  predicate GivesUp(width: nat, op: Op, current: nat)
    requires width >= 32
  {
    op.Clear? && TickOf(width, current) != op.tick
  }

  /** The fields of an assembled word are its parts, and nothing reaches the shutdown bit. */
  lemma AssembleFields(width: nat, generation: nat, tick: nat, ready: nat)
    requires width >= 32 && generation < 128 && tick < 256 && ready < 16
    ensures Assemble(width, generation, tick, ready).Some?
    ensures var word := Assemble(width, generation, tick, ready).value;
            && TickOf(width, word) == tick && GenerationOf(width, word) == generation
            && ShutdownOf(width, word) == 0 && word < Pow2(SHUTDOWN_BIT)
            && FlagsOf(width, word) == Flags(ready)
  {
    Layout(width);
    Small();
    var t, g := TickField(width), GenerationField(width);
    UnpackInvertsPack(width, t, 16, 8, tick, ready);
    var packed := PackIn(width, t, tick, ready).value;
    UnpackInvertsPack(width, g, 24, 7, generation, packed);
    var word := PackIn(width, g, generation, packed).value;
    PackKeepsOthers(width, g, 24, 7, t, 16, 8, generation, packed);
    forall i: nat ensures Bit(word, i) ==> i < 31 {
      AssembledBit(width, generation, tick, ready, i);
    }
    LowBitsOnly(word, 31);
    NoShutdown(width, word);
    forall f: Flag ensures f in FlagsOf(width, word) <==> f in Flags(ready) {
      AssembledBit(width, generation, tick, ready, Place(f));
      UnpackBits(width, ReadinessField(width), 0, 16, word, Place(f));
      FromWordKeepsFlags(Unpack(ReadinessField(width), word));
    }
  }

  lemma Small()
    ensures Pow2(4) == 16 && Pow2(7) == 128 && Pow2(8) == 256
  {
  }

  lemma AssembledBit(width: nat, generation: nat, tick: nat, ready: nat, i: nat)
    requires width >= 32 && generation < 128 && tick < 256 && ready < 16
    ensures Assemble(width, generation, tick, ready).Some?
    ensures Bit(Assemble(width, generation, tick, ready).value, i) ==> i < 31
    ensures i < 16 ==> (Bit(Assemble(width, generation, tick, ready).value, i) <==> Bit(ready, i))
  {
    Layout(width);
    Small();
    PackBits(width, TickField(width), 16, 8, tick, ready, i);
    var packed := PackIn(width, TickField(width), tick, ready).value;
    PackBits(width, GenerationField(width), 24, 7, generation, packed, i);
    if Bit(ready, i) {
      BitsBelow(ready, 4, i);
    }
  }

  lemma NoShutdown(width: nat, word: nat)
    requires width >= 32 && word < Pow2(SHUTDOWN_BIT)
    ensures ShutdownOf(width, word) == 0
  {
    Layout(width);
    forall i: nat ensures Bit(ShutdownOf(width, word), i) <==> Bit(0, i) {
      UnpackBits(width, ShutdownField(width), 31, 1, word, i);
      ZeroBits(i);
      if Bit(word, 31 + i) {
        BitsBelow(word, 31, 31 + i);
      }
    }
    SameBits(ShutdownOf(width, word), 0);
  }

  lemma FieldsBelow(width: nat, word: nat)
    requires width >= 32
    ensures TickOf(width, word) < 256 && GenerationOf(width, word) < 128
  {
    Layout(width);
    Small();
    UnpackBelow(width, TickField(width), 16, 8, word);
    UnpackBelow(width, GenerationField(width), 24, 7, word);
  }

  /** `from_usize` on the whole word and on its readiness field see the same flags. */
  lemma WholeWordFlags(width: nat, word: nat)
    requires width >= 32
    ensures Flags(FromWord(word)) == FlagsOf(width, word) && FromWord(word) < 16
  {
    Layout(width);
    FromWordKeepsFlags(word);
    FromWordKeepsFlags(Unpack(ReadinessField(width), word));
    forall f: Flag ensures f in Flags(word) <==> f in Flags(Unpack(ReadinessField(width), word)) {
      UnpackBits(width, ReadinessField(width), 0, 16, word, Place(f));
    }
  }

  const CLOSED: set<Flag> := {ReadClosed, WriteClosed}

  /** What an operation makes of the flags. */
  function NewFlags(op: Op, flags: set<Flag>): set<Flag> {
    match op
    case Set(_, r) => flags + Flags(r)
    case Clear(_, m) => flags - Flags(m)
  }

  lemma BelowSixteen(x: nat)
    requires forall i: nat :: Bit(x, i) ==> i < 4
    ensures x < 16
  {
    Small();
    LowBitsOnly(x, 4);
  }

  lemma BelowSixteenBits(x: nat, i: nat)
    requires x < 16 && Bit(x, i)
    ensures i < 4
  {
    Small();
    BitsBelow(x, 4, i);
  }

  /** An attempt never panics; it changes the flags as intended, sets the tick, keeps the rest. */
  lemma AttemptEffect(width: nat, op: Op, current: nat)
    requires width >= 32 && op.tick < 256 && (op.Set? ==> op.ready < 16)
    ensures Attempt(width, op, current).Some?
    ensures var next := Attempt(width, op, current).value;
            && FlagsOf(width, next) == NewFlags(op, FlagsOf(width, current))
            && TickOf(width, next) == op.tick
            && GenerationOf(width, next) == GenerationOf(width, current)
            && next < Pow2(SHUTDOWN_BIT)
  {
    WholeWordFlags(width, current);
    FieldsBelow(width, current);
    var ready, updated := FromWord(current), NewReady(width, op, current);
    forall i: nat ensures Bit(updated, i) ==> i < 4 {
      match op
      case Set(_, r) =>
        OrBits(ready, r, i);
        if Bit(ready, i) { BelowSixteenBits(ready, i); }
        if Bit(r, i) { BelowSixteenBits(r, i); }
      case Clear(_, m) =>
        AndBits(ready, Not(m, width), i);
        if Bit(ready, i) { BelowSixteenBits(ready, i); }
    }
    BelowSixteen(updated);
    match op {
      case Set(_, r) => FlagsOr(ready, r);
      case Clear(_, m) => FlagsMinus(width, ready, m);
    }
    AssembleFields(width, GenerationOf(width, current), op.tick, updated);
  }

  /** `clear_readiness` never asks for a closed flag to go. */
  lemma ClearSparesClosed(width: nat, tick: nat, ready: nat)
    requires width >= 32
    ensures Flags(ClearOf(width, tick, ready).mask) == Flags(ready) - CLOSED
  {
    FlagsOfConstants();
    FlagsMinus(width, ready, READ_CLOSED);
    FlagsMinus(width, Minus(width, ready, READ_CLOSED), WRITE_CLOSED);
  }

  /** `Clear::clear` on reuse of the entry. */
  function Reused(width: nat, word: nat): Option<nat>
    requires width >= 32
  {
    Layout(width);
    FieldMax(width, GenerationField(width), 24, 7);
    Small();
    PackLossy(width, GenerationField(width), GenerationOf(width, word) + 1, 0)
  }

  /** Reuse bumps the generation modulo 128 and wipes everything else. */
  lemma ReusedEffect(width: nat, word: nat)
    requires width >= 32
    ensures Reused(width, word).Some?
    ensures var next := Reused(width, word).value;
            && GenerationOf(width, next) == (GenerationOf(width, word) + 1) % 128
            && FlagsOf(width, next) == {} && TickOf(width, next) == 0 && next < Pow2(SHUTDOWN_BIT)
  {
    Layout(width);
    Small();
    var g, t := GenerationField(width), TickField(width);
    var generation := GenerationOf(width, word) + 1;
    PackLossyIsMod(width, g, 24, 7, generation, 0);
    UnpackInvertsPack(width, g, 24, 7, generation % 128, 0);
    var next := Reused(width, word).value;
    PackKeepsOthers(width, g, 24, 7, t, 16, 8, generation % 128, 0);
    UnpackZero(t);
    forall i: nat ensures Bit(next, i) ==> 24 <= i < 31 {
      PackBits(width, g, 24, 7, generation % 128, 0, i);
      ZeroBits(i);
    }
    LowBitsOnly(next, 31);
    forall f: Flag ensures f !in FlagsOf(width, next) {
      UnpackBits(width, ReadinessField(width), 0, 16, next, Place(f));
      FromWordKeepsFlags(Unpack(ReadinessField(width), next));
    }
  }

  lemma UnpackZero(p: Pack)
    ensures Unpack(p, 0) == 0
  {
    forall i: nat ensures Bit(Unpack(p, 0), i) <==> Bit(0, i) {
      ShrBits(And(0, p.mask), p.shift, i);
      ZeroBits(i + p.shift);
      ZeroBits(i);
    }
    SameBits(Unpack(p, 0), 0);
  }

  /** The readiness `ready_event` reports. */
  function ReadyOf(width: nat, word: nat, i: Interest): nat
    requires width >= 32
  {
    And(Mask(i), FromWord(Unpack(ReadinessField(width), word)))
  }

  /** An interest that `mask` knows. */
  predicate Plain(i: Interest) {
    i.readable != i.writable && !i.other
  }

  /**
   `ready_event` reports the wanted flags of a plain single interest and nothing for any other, so
   `try_io` on a combined interest never attempts its operation.
   */
  lemma ReadyOfFlags(width: nat, word: nat, i: Interest)
    requires width >= 32
    ensures Flags(ReadyOf(width, word, i)) == if Plain(i) then FlagsOf(width, word) * Wanted(i) else {}
    ensures ReadyOf(width, word, i) != EMPTY <==> Plain(i) && FlagsOf(width, word) * Wanted(i) != {}
  {
    var ready := FromWord(Unpack(ReadinessField(width), word));
    FromWordKeepsFlags(Unpack(ReadinessField(width), word));
    FlagsOfInterest(i);
    FlagsOfConstants();
    MaskMatchesInterest(i);
    FlagsAnd(Mask(i), ready);
    AndEmpty(Mask(i), ready);
    assert !Plain(i) ==> Mask(i) == EMPTY;
  }
}
