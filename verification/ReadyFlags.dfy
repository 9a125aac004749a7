/**
 The readiness sets of `src/io/ready.rs`: words whose four lowest bits are flags, and the set
 algebra their operators implement.
 */
module ReadyFlags {
  import opened Bits

  datatype Flag = Readable | Writable | ReadClosed | WriteClosed

  /** `mio::Interest`: `other` stands for its platform-specific bits. */
  datatype Interest = Interest(readable: bool, writable: bool, other: bool)

  /** `Ready(usize)` */
  type Ready = nat

  const EMPTY: Ready := 0
  const READABLE: Ready := 1
  const WRITABLE: Ready := 2
  const READ_CLOSED: Ready := 4
  const WRITE_CLOSED: Ready := 8
  const ALL: Ready := 15

  function Place(f: Flag): nat {
    match f
    case Readable => 0
    case Writable => 1
    case ReadClosed => 2
    case WriteClosed => 3
  }

  /** The flags a word holds. */
  function Flags(r: Ready): set<Flag> {
    set f: Flag | Bit(r, Place(f))
  }

  function FromWord(x: nat): Ready { And(x, ALL) }

  /** `-`: a complement only ever meets flags of the other operand. */
  function Minus(width: nat, a: Ready, b: Ready): Ready { And(a, Not(b, width)) }

  predicate Contains(a: Ready, b: Ready) { And(a, b) == b }

  predicate IsReadable(r: Ready) { Contains(r, READABLE) || Contains(r, READ_CLOSED) }

  predicate IsWritable(r: Ready) { Contains(r, WRITABLE) || Contains(r, WRITE_CLOSED) }

  /** `from_mio`: one flag at a time. */
  function FromEvent(readable: bool, writable: bool, readClosed: bool, writeClosed: bool): Ready {
    var r := EMPTY;
    var r := if readable then Or(r, READABLE) else r;
    var r := if writable then Or(r, WRITABLE) else r;
    var r := if readClosed then Or(r, READ_CLOSED) else r;
    if writeClosed then Or(r, WRITE_CLOSED) else r
  }

  function FromInterest(i: Interest): Ready {
    var r := EMPTY;
    var r := if i.readable then Or(Or(r, READABLE), READ_CLOSED) else r;
    if i.writable then Or(Or(r, WRITABLE), WRITE_CLOSED) else r
  }

  function Intersection(r: Ready, i: Interest): Ready { And(r, FromInterest(i)) }

  predicate Satisfies(r: Ready, i: Interest) { And(r, FromInterest(i)) != 0 }

  /** `mask` of `src/io/mod.rs`, which matches single interests only. */
  function Mask(i: Interest): Ready {
    if i == Interest(true, false, false) then Or(READABLE, READ_CLOSED)
    else if i == Interest(false, true, false) then Or(WRITABLE, WRITE_CLOSED)
    else EMPTY
  }

  // ---------------------------------------------------------------------------
  // The operators are set operations
  // ---------------------------------------------------------------------------

  /** The flags an interest is after. */
  function Wanted(i: Interest): set<Flag> {
    (if i.readable then {Readable, ReadClosed} else {}) + (if i.writable then {Writable, WriteClosed} else {})
  }

  lemma FlagsOfConstants()
    ensures Flags(EMPTY) == {} && Flags(READABLE) == {Readable} && Flags(WRITABLE) == {Writable}
    ensures Flags(READ_CLOSED) == {ReadClosed} && Flags(WRITE_CLOSED) == {WriteClosed}
    ensures Flags(ALL) == {Readable, Writable, ReadClosed, WriteClosed}
  {
    forall i: nat | i < 4
      ensures !Bit(0, i) && (Bit(1, i) <==> i == 0) && (Bit(2, i) <==> i == 1)
      ensures (Bit(4, i) <==> i == 2) && (Bit(8, i) <==> i == 3) && Bit(15, i)
    {
      SmallBits(i);
    }
  }

  lemma SmallBits(i: nat)
    requires i < 4
    ensures !Bit(0, i) && (Bit(1, i) <==> i == 0) && (Bit(2, i) <==> i == 1)
    ensures (Bit(4, i) <==> i == 2) && (Bit(8, i) <==> i == 3) && Bit(15, i)
  {
    ZeroBits(i);
    ShlOne(0, i);
    ShlOne(1, i);
    ShlOne(2, i);
    ShlOne(3, i);
    OnesBits(4, i);
    assert Pow2(3) == 8 && Pow2(4) == 16;
    assert Shl(1, 1) == 2 && Shl(1, 2) == 4 && Shl(1, 3) == 8;
  }

  lemma FlagsOr(a: Ready, b: Ready)
    ensures Flags(Or(a, b)) == Flags(a) + Flags(b)
  {
    forall f: Flag ensures f in Flags(Or(a, b)) <==> f in Flags(a) + Flags(b) {
      OrBits(a, b, Place(f));
    }
  }

  lemma FlagsAnd(a: Ready, b: Ready)
    ensures Flags(And(a, b)) == Flags(a) * Flags(b)
  {
    forall f: Flag ensures f in Flags(And(a, b)) <==> f in Flags(a) * Flags(b) {
      AndBits(a, b, Place(f));
    }
  }

  lemma FlagsMinus(width: nat, a: Ready, b: Ready)
    requires width >= 4
    ensures Flags(Minus(width, a, b)) == Flags(a) - Flags(b)
  {
    forall f: Flag ensures f in Flags(Minus(width, a, b)) <==> f in Flags(a) - Flags(b) {
      AndBits(a, Not(b, width), Place(f));
      NotBits(b, width, Place(f));
    }
  }

  /** A word below 16 is its flags. */
  lemma FlagsDetermine(a: Ready, b: Ready)
    requires a < 16 && b < 16 && Flags(a) == Flags(b)
    ensures a == b
  {
    assert Pow2(4) == 16;
    forall i: nat ensures Bit(a, i) <==> Bit(b, i) {
      if i < 4 {
        var f := if i == 0 then Readable else if i == 1 then Writable else if i == 2 then ReadClosed else WriteClosed;
        assert f in Flags(a) <==> f in Flags(b);
      } else {
        if Bit(a, i) { BitsBelow(a, 4, i); }
        if Bit(b, i) { BitsBelow(b, 4, i); }
      }
    }
    SameBits(a, b);
  }

  lemma FromWordKeepsFlags(x: nat)
    ensures FromWord(x) < 16 && Flags(FromWord(x)) == Flags(x)
  {
    assert Pow2(4) == 16;
    forall i: nat ensures Bit(FromWord(x), i) ==> i < 4 {
      AndBits(x, ALL, i);
      if Bit(ALL, i) { BitsBelow(ALL, 4, i); }
    }
    LowBitsOnly(FromWord(x), 4);
    FlagsAnd(x, ALL);
    FlagsOfConstants();
  }

  /** Emptiness of an intersection is emptiness of the word. */
  lemma AndEmpty(a: Ready, b: Ready)
    requires b < 16
    ensures And(a, b) == 0 <==> Flags(a) * Flags(b) == {}
  {
    assert Pow2(4) == 16;
    FlagsAnd(a, b);
    FlagsOfConstants();
    forall i: nat ensures Bit(And(a, b), i) ==> i < 4 {
      AndBits(a, b, i);
      if Bit(b, i) { BitsBelow(b, 4, i); }
    }
    LowBitsOnly(And(a, b), 4);
    if Flags(a) * Flags(b) == {} {
      FlagsDetermine(And(a, b), 0);
    }
  }

  /** `from_mio` keeps exactly what the event reports. */
  lemma FlagsOfEvent(readable: bool, writable: bool, readClosed: bool, writeClosed: bool)
    ensures var r := FromEvent(readable, writable, readClosed, writeClosed);
            && r < 16 && (Readable in Flags(r) <==> readable) && (Writable in Flags(r) <==> writable)
            && (ReadClosed in Flags(r) <==> readClosed) && (WriteClosed in Flags(r) <==> writeClosed)
  {
    FlagsOfConstants();
    var r1 := if readable then Or(EMPTY, READABLE) else EMPTY;
    var r2 := if writable then Or(r1, WRITABLE) else r1;
    var r3 := if readClosed then Or(r2, READ_CLOSED) else r2;
    FlagsOr(EMPTY, READABLE);
    FlagsOr(r1, WRITABLE);
    FlagsOr(r2, READ_CLOSED);
    FlagsOr(r3, WRITE_CLOSED);
    SmallOr(EMPTY, READABLE);
    SmallOr(r1, WRITABLE);
    SmallOr(r2, READ_CLOSED);
    SmallOr(r3, WRITE_CLOSED);
  }

  lemma SmallOr(a: Ready, b: Ready)
    requires a < 16 && b < 16
    ensures Or(a, b) < 16
  {
    assert Pow2(4) == 16;
    forall i: nat ensures Bit(Or(a, b), i) ==> i < 4 {
      OrBits(a, b, i);
      if Bit(a, i) { BitsBelow(a, 4, i); }
      if Bit(b, i) { BitsBelow(b, 4, i); }
    }
    LowBitsOnly(Or(a, b), 4);
  }

  lemma FlagsOfInterest(i: Interest)
    ensures FromInterest(i) < 16 && Flags(FromInterest(i)) == Wanted(i)
  {
    FlagsOfConstants();
    FlagsOr(EMPTY, READABLE);
    var r := Or(EMPTY, READABLE);
    FlagsOr(r, READ_CLOSED);
    var base := if i.readable then Or(r, READ_CLOSED) else EMPTY;
    FlagsOr(base, WRITABLE);
    FlagsOr(Or(base, WRITABLE), WRITE_CLOSED);
    assert Flags(FromInterest(i)) == Wanted(i);
    InterestSmall(i);
  }

  lemma InterestSmall(i: Interest)
    ensures FromInterest(i) < 16
  {
    assert Or(0, 1) == 1 && Or(1, 4) == 5;
    assert Or(0, 2) == 2 && Or(2, 8) == 10;
    assert Or(5, 2) == 7 && Or(7, 8) == 15;
  }

  /** `satisfies` means: some flag the interest is after is set. */
  lemma SatisfiesMeansWanted(r: Ready, i: Interest)
    ensures Satisfies(r, i) <==> Flags(r) * Wanted(i) != {}
    ensures Flags(Intersection(r, i)) == Flags(r) * Wanted(i)
  {
    FlagsOfInterest(i);
    AndEmpty(r, FromInterest(i));
    FlagsAnd(r, FromInterest(i));
  }

  /** `is_readable` and `is_writable` are `satisfies` for the single interests. */
  lemma DirectionMeansWanted(r: Ready)
    ensures IsReadable(r) <==> Flags(r) * {Readable, ReadClosed} != {}
    ensures IsWritable(r) <==> Flags(r) * {Writable, WriteClosed} != {}
  {
    FlagsOfConstants();
    ContainsFlag(r, READABLE, Readable);
    ContainsFlag(r, READ_CLOSED, ReadClosed);
    ContainsFlag(r, WRITABLE, Writable);
    ContainsFlag(r, WRITE_CLOSED, WriteClosed);
    forall f: Flag, g: Flag
      ensures Flags(r) * {f, g} != {} <==> f in Flags(r) || g in Flags(r)
    {
      assert f in Flags(r) ==> f in Flags(r) * {f, g};
      assert g in Flags(r) ==> g in Flags(r) * {f, g};
    }
  }

  lemma ContainsFlag(r: Ready, word: Ready, f: Flag)
    requires word < 16 && Flags(word) == {f}
    ensures Contains(r, word) <==> f in Flags(r)
  {
    FlagsAnd(r, word);
    if f in Flags(r) {
      forall i: nat ensures Bit(And(r, word), i) ==> i < 4 {
        AndBits(r, word, i);
        assert Pow2(4) == 16;
        if Bit(word, i) { BitsBelow(word, 4, i); }
      }
      LowBitsOnly(And(r, word), 4);
      assert Pow2(4) == 16;
      assert Flags(r) * {f} == {f};
      FlagsDetermine(And(r, word), word);
    }
  }

  /**
   `mask` agrees with `from_interest` exactly on single interests. For a combined interest it is
   empty, so `ready_event`, and with it `try_io`, never sees such a source ready.
   */
  lemma MaskMatchesInterest(i: Interest)
    ensures Mask(i) == FromInterest(i)
       <==> (!i.readable && !i.writable) || (i.readable != i.writable && !i.other)
  {
    assert Or(0, 1) == 1 && Or(1, 4) == 5;
    assert Or(0, 2) == 2 && Or(2, 8) == 10;
    assert Or(5, 2) == 7 && Or(7, 8) == 15;
  }
}
