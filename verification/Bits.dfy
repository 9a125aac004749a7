/**
 Machine words as natural numbers, bit by bit, and the bit-field packing of `src/bits.rs` for
 any pointer width.
 */
module Bits {
  import opened Basics

  // ---------------------------------------------------------------------------
  // Words
  // ---------------------------------------------------------------------------

  /** Bit `i` of `x`. */
  predicate Bit(x: nat, i: nat) {
    if i == 0 then x % 2 == 1 else Bit(x / 2, i - 1)
  }

  function And(x: nat, y: nat): nat {
    if x == 0 then 0 else 2 * And(x / 2, y / 2) + B(x % 2 == 1 && y % 2 == 1)
  }

  function Or(x: nat, y: nat): nat
    decreases x + y
  {
    if x == 0 && y == 0 then 0 else 2 * Or(x / 2, y / 2) + B(x % 2 == 1 || y % 2 == 1)
  }

  /** The lowest `n` bits of `x`. */
  function Trunc(x: nat, n: nat): nat
    decreases n
  {
    if n == 0 then 0 else 2 * Trunc(x / 2, n - 1) + x % 2
  }

  /** Complement within `n` bits. */
  function Not(x: nat, n: nat): nat
    decreases n
  {
    if n == 0 then 0 else 2 * Not(x / 2, n - 1) + (1 - x % 2)
  }

  function Shl(x: nat, k: nat): nat
    decreases k
  {
    if k == 0 then x else 2 * Shl(x, k - 1)
  }

  function Shr(x: nat, k: nat): nat
    decreases k
  {
    if k == 0 then x else Shr(x / 2, k - 1)
  }

  /** The number of bits up to the highest one set; a word's leading zeros are the rest. */
  function Length(x: nat): nat {
    if x == 0 then 0 else 1 + Length(x / 2)
  }

  function Pow2(n: nat): (p: nat)
    ensures p > 0
  {
    if n == 0 then 1 else 2 * Pow2(n - 1)
  }

  lemma {:induction false} ZeroBits(i: nat)
    ensures !Bit(0, i)
  {
    if i > 0 { ZeroBits(i - 1); }
  }

  lemma {:induction false} AndBits(x: nat, y: nat, i: nat)
    ensures Bit(And(x, y), i) <==> Bit(x, i) && Bit(y, i)
    decreases i
  {
    if x == 0 {
      ZeroBits(i);
    } else if i > 0 {
      AndBits(x / 2, y / 2, i - 1);
    }
  }

  lemma {:induction false} OrBits(x: nat, y: nat, i: nat)
    ensures Bit(Or(x, y), i) <==> Bit(x, i) || Bit(y, i)
    decreases i
  {
    if x == 0 && y == 0 {
      ZeroBits(i);
    } else if i > 0 {
      OrBits(x / 2, y / 2, i - 1);
    }
  }

  lemma {:induction false} TruncBits(x: nat, n: nat, i: nat)
    ensures Bit(Trunc(x, n), i) <==> i < n && Bit(x, i)
    decreases n
  {
    if n == 0 {
      ZeroBits(i);
    } else if i > 0 {
      TruncBits(x / 2, n - 1, i - 1);
    }
  }

  lemma {:induction false} NotBits(x: nat, n: nat, i: nat)
    ensures Bit(Not(x, n), i) <==> i < n && !Bit(x, i)
    decreases n
  {
    if n == 0 {
      ZeroBits(i);
    } else if i > 0 {
      NotBits(x / 2, n - 1, i - 1);
    }
  }

  lemma {:induction false} ShlBits(x: nat, k: nat, i: nat)
    ensures Bit(Shl(x, k), i) <==> k <= i && Bit(x, i - k)
    decreases k
  {
    if k > 0 && i > 0 {
      ShlBits(x, k - 1, i - 1);
    }
  }

  lemma {:induction false} ShrBits(x: nat, k: nat, i: nat)
    ensures Bit(Shr(x, k), i) <==> Bit(x, i + k)
    decreases k
  {
    if k > 0 {
      ShrBits(x / 2, k - 1, i);
    }
  }

  /** A word is its bits. */
  lemma {:induction false} SameBits(x: nat, y: nat)
    requires forall i: nat :: Bit(x, i) <==> Bit(y, i)
    ensures x == y
    decreases x + y
  {
    assert Bit(x, 0) <==> Bit(y, 0);
    if x > 0 || y > 0 {
      forall i: nat ensures Bit(x / 2, i) <==> Bit(y / 2, i) {
        assert Bit(x, i + 1) <==> Bit(y, i + 1);
      }
      SameBits(x / 2, y / 2);
    }
  }

  lemma {:induction false} LowBitsOnly(x: nat, n: nat)
    requires forall i: nat :: Bit(x, i) ==> i < n
    ensures x < Pow2(n)
    decreases n
  {
    if n == 0 {
      forall i: nat ensures Bit(x, i) <==> Bit(0, i) { ZeroBits(i); }
      SameBits(x, 0);
    } else {
      forall i: nat ensures Bit(x / 2, i) ==> i < n - 1 {
        assert Bit(x, i + 1) ==> i + 1 < n;
      }
      LowBitsOnly(x / 2, n - 1);
    }
  }

  lemma {:induction false} BitsBelow(x: nat, n: nat, i: nat)
    requires x < Pow2(n) && Bit(x, i)
    ensures i < n
    decreases n
  {
    if n == 0 {
      ZeroBits(i);
    } else if i > 0 {
      BitsBelow(x / 2, n - 1, i - 1);
    }
  }

  /** The length is one past the highest bit set. */
  lemma {:induction false} LengthFromBits(x: nat, n: nat)
    requires n > 0 && Bit(x, n - 1) && forall i: nat :: Bit(x, i) ==> i < n
    ensures Length(x) == n
    decreases n
  {
    if x == 0 {
      ZeroBits(n - 1);
    } else if n == 1 {
      LowBitsOnly(x, 1);
      assert Pow2(1) == 2 * Pow2(0);
    } else {
      forall i: nat ensures Bit(x / 2, i) ==> i < n - 1 {
        assert Bit(x, i + 1) ==> i + 1 < n;
      }
      LengthFromBits(x / 2, n - 1);
    }
  }

  lemma {:induction false} TruncIsMod(x: nat, n: nat)
    ensures Trunc(x, n) == x % Pow2(n)
    decreases n
  {
    if n > 0 {
      TruncIsMod(x / 2, n - 1);
      HalfMod(x, Pow2(n - 1));
    }
  }

  lemma HalfMod(x: nat, p: nat)
    requires p > 0
    ensures x % (2 * p) == 2 * ((x / 2) % p) + x % 2
  {
    var q, r := (x / 2) / p, (x / 2) % p;
    assert x / 2 == p * q + r;
    assert x == (2 * p) * q + (2 * r + x % 2);
    ModUnique(x, 2 * p, q, 2 * r + x % 2);
  }

  lemma ModUnique(x: nat, m: nat, q: nat, r: nat)
    requires m > 0 && x == m * q + r && r < m
    ensures x % m == r
  {
    var d := x / m - q;
    assert m * d == r - x % m;
    MultipleTooSmall(m, d);
  }

  lemma MultipleTooSmall(m: int, d: int)
    requires -m < m * d < m
    ensures d == 0
  {
    assert d >= 1 ==> m * d >= m;
    assert d <= -1 ==> m * d <= -m;
  }

  lemma {:induction false} ShlOne(k: nat, i: nat)
    ensures Bit(Shl(1, k), i) <==> i == k
    ensures Shl(1, k) == Pow2(k)
  {
    if k > 0 {
      ShlOne(k - 1, if i > 0 then i - 1 else 0);
    } else if i > 0 {
      ZeroBits(i - 1);
    }
  }

  lemma {:induction false} OnesBits(k: nat, i: nat)
    ensures Bit(Pow2(k) - 1, i) <==> i < k
  {
    if k == 0 {
      ZeroBits(i);
    } else if i > 0 {
      OnesBits(k - 1, i - 1);
    }
  }

  // ---------------------------------------------------------------------------
  // Pack
  // ---------------------------------------------------------------------------

  datatype Pack = Pack(mask: nat, shift: nat)

  /** `leading_zeros` of a word of `width` bits. */
  function LeadingZeros(width: nat, x: nat): int { width - Length(x) }

  /** `mask_for`: the lowest `n` bits set. */
  function MaskFor(width: nat, n: nat): nat
    requires width > 0 && n > 0
  {
    var shift := Trunc(Shl(1, (n - 1) % width), width);
    Or(shift, if shift > 0 then shift - 1 else 0)
  }

  function LeastSignificant(width: nat, n: nat): Pack
    requires width > 0 && n > 0
  {
    Pack(MaskFor(width, n), 0)
  }

  /** The field of `n` bits right above `p`. */
  function Then(width: nat, p: Pack, n: nat): Pack
    requires width > 0 && n > 0 && Length(p.mask) < width
  {
    var shift := width - LeadingZeros(width, p.mask);
    Pack(Trunc(Shl(MaskFor(width, n), shift), width), shift)
  }

  function Width(width: nat, p: Pack): int {
    width - LeadingZeros(width, Shr(p.mask, p.shift))
  }

  function MaxValue(width: nat, p: Pack): int
    requires 0 <= Width(width, p) < width
  {
    Trunc(Shl(1, Width(width, p)), width) - 1
  }

  /** `pack`; `None` where its assertion fails. */
  function PackIn(width: nat, p: Pack, value: nat, base: nat): Option<nat>
    requires 0 <= Width(width, p) < width
  {
    if value > MaxValue(width, p) then None
    else Some(Or(And(base, Not(p.mask, width)), Trunc(Shl(value, p.shift), width)))
  }

  function PackLossy(width: nat, p: Pack, value: nat, base: nat): Option<nat>
    requires 0 <= Width(width, p) < width && MaxValue(width, p) >= 0
  {
    PackIn(width, p, And(value, MaxValue(width, p)), base)
  }

  function Unpack(p: Pack, src: nat): nat {
    Shr(And(src, p.mask), p.shift)
  }

  // ---------------------------------------------------------------------------
  // What fields do
  // ---------------------------------------------------------------------------

  /** `p` describes the `n` bits from bit `lo` on. */
  ghost predicate IsField(width: nat, p: Pack, lo: nat, n: nat) {
    && p.shift == lo && 0 < n && lo + n <= width
    && forall i: nat :: Bit(p.mask, i) <==> lo <= i < lo + n
  }

  lemma OneInWord(width: nat, k: nat)
    requires k < width
    ensures Trunc(Shl(1, k), width) == Pow2(k)
  {
    var one := Shl(1, k);
    forall j: nat ensures Bit(Trunc(one, width), j) <==> Bit(one, j) {
      TruncBits(one, width, j);
      ShlOne(k, j);
    }
    SameBits(Trunc(one, width), one);
    ShlOne(k, 0);
  }

  lemma MaskForBits(width: nat, n: nat, i: nat)
    requires 0 < n <= width
    ensures Bit(MaskFor(width, n), i) <==> i < n
  {
    assert (n - 1) % width == n - 1;
    OneInWord(width, n - 1);
    ShlOne(n - 1, i);
    OnesBits(n - 1, i);
    OrBits(Pow2(n - 1), Pow2(n - 1) - 1, i);
  }

  lemma LeastSignificantIsField(width: nat, n: nat)
    requires 0 < n <= width
    ensures IsField(width, LeastSignificant(width, n), 0, n)
  {
    forall i: nat ensures Bit(LeastSignificant(width, n).mask, i) <==> i < n {
      MaskForBits(width, n, i);
    }
  }

  /** `then` starts exactly where the previous field ends. */
  lemma ThenIsField(width: nat, p: Pack, lo: nat, m: nat, n: nat)
    requires IsField(width, p, lo, m) && 0 < n && lo + m + n <= width
    ensures Length(p.mask) == lo + m < width
    ensures IsField(width, Then(width, p, n), lo + m, n)
  {
    assert Bit(p.mask, lo + m - 1);
    LengthFromBits(p.mask, lo + m);
    forall i: nat ensures Bit(Then(width, p, n).mask, i) <==> lo + m <= i < lo + m + n {
      TruncBits(Shl(MaskFor(width, n), lo + m), width, i);
      ShlBits(MaskFor(width, n), lo + m, i);
      if lo + m <= i {
        MaskForBits(width, n, i - (lo + m));
      }
    }
  }

  lemma FieldMax(width: nat, p: Pack, lo: nat, n: nat)
    requires IsField(width, p, lo, n) && n < width
    ensures Width(width, p) == n && MaxValue(width, p) == Pow2(n) - 1
  {
    var low := Shr(p.mask, p.shift);
    forall i: nat ensures Bit(low, i) <==> i < n {
      ShrBits(p.mask, p.shift, i);
    }
    LengthFromBits(low, n);
    OneInWord(width, n);
  }

  lemma UnpackBits(width: nat, p: Pack, lo: nat, n: nat, src: nat, i: nat)
    requires IsField(width, p, lo, n)
    ensures Bit(Unpack(p, src), i) <==> i < n && Bit(src, lo + i)
  {
    ShrBits(And(src, p.mask), p.shift, i);
    AndBits(src, p.mask, i + p.shift);
  }

  /** Packing replaces the field's bits and keeps the others. */
  lemma PackBits(width: nat, p: Pack, lo: nat, n: nat, value: nat, base: nat, i: nat)
    requires IsField(width, p, lo, n) && n < width && value < Pow2(n)
    ensures Width(width, p) == n && PackIn(width, p, value, base).Some?
    ensures Bit(PackIn(width, p, value, base).value, i)
       <==> (if lo <= i < lo + n then Bit(value, i - lo) else i < width && Bit(base, i))
  {
    FieldMax(width, p, lo, n);
    OrBits(And(base, Not(p.mask, width)), Trunc(Shl(value, p.shift), width), i);
    AndBits(base, Not(p.mask, width), i);
    NotBits(p.mask, width, i);
    TruncBits(Shl(value, p.shift), width, i);
    ShlBits(value, p.shift, i);
    if lo <= i && Bit(value, i - lo) {
      BitsBelow(value, n, i - lo);
    }
  }

  /** `pack` fails exactly on values too wide for the field; otherwise `unpack` gives them back. */
  lemma UnpackInvertsPack(width: nat, p: Pack, lo: nat, n: nat, value: nat, base: nat)
    requires IsField(width, p, lo, n) && n < width
    ensures Width(width, p) == n
    ensures PackIn(width, p, value, base).Some? <==> value < Pow2(n)
    ensures value < Pow2(n) ==> Unpack(p, PackIn(width, p, value, base).value) == value
  {
    FieldMax(width, p, lo, n);
    if value < Pow2(n) {
      var word := PackIn(width, p, value, base).value;
      forall i: nat ensures Bit(Unpack(p, word), i) <==> Bit(value, i) {
        UnpackBits(width, p, lo, n, word, i);
        PackBits(width, p, lo, n, value, base, lo + i);
        if Bit(value, i) {
          BitsBelow(value, n, i);
        }
      }
      SameBits(Unpack(p, word), value);
    }
  }

  /** Packing one field leaves every disjoint field as it was. */
  lemma PackKeepsOthers(width: nat, p: Pack, lo: nat, n: nat, other: Pack, lo': nat, n': nat, value: nat, base: nat)
    requires IsField(width, p, lo, n) && n < width && value < Pow2(n)
    requires IsField(width, other, lo', n') && (lo + n <= lo' || lo' + n' <= lo)
    ensures Width(width, p) == n && PackIn(width, p, value, base).Some?
    ensures Unpack(other, PackIn(width, p, value, base).value) == Unpack(other, base)
  {
    PackBits(width, p, lo, n, value, base, 0);
    var word := PackIn(width, p, value, base).value;
    forall i: nat ensures Bit(Unpack(other, word), i) <==> Bit(Unpack(other, base), i) {
      UnpackBits(width, other, lo', n', word, i);
      UnpackBits(width, other, lo', n', base, i);
      PackBits(width, p, lo, n, value, base, lo' + i);
    }
    SameBits(Unpack(other, word), Unpack(other, base));
  }

  /** `pack_lossy` never fails and packs the value modulo the field's size. */
  lemma PackLossyIsMod(width: nat, p: Pack, lo: nat, n: nat, value: nat, base: nat)
    requires IsField(width, p, lo, n) && n < width
    ensures Width(width, p) == n && MaxValue(width, p) >= 0
    ensures PackLossy(width, p, value, base) == PackIn(width, p, value % Pow2(n), base)
    ensures PackLossy(width, p, value, base).Some?
  {
    FieldMax(width, p, lo, n);
    var ones := Pow2(n) - 1;
    forall i: nat ensures Bit(And(value, ones), i) <==> Bit(Trunc(value, n), i) {
      AndBits(value, ones, i);
      OnesBits(n, i);
      TruncBits(value, n, i);
    }
    SameBits(And(value, ones), Trunc(value, n));
    TruncIsMod(value, n);
  }

  lemma UnpackBelow(width: nat, p: Pack, lo: nat, n: nat, src: nat)
    requires IsField(width, p, lo, n)
    ensures Unpack(p, src) < Pow2(n)
  {
    forall i: nat ensures Bit(Unpack(p, src), i) ==> i < n {
      UnpackBits(width, p, lo, n, src, i);
    }
    LowBitsOnly(Unpack(p, src), n);
  }

  // ---------------------------------------------------------------------------
  // Chains of fields
  // ---------------------------------------------------------------------------

  function Total(widths: seq<nat>): nat {
    if widths == [] then 0 else Total(widths[..|widths| - 1]) + widths[|widths| - 1]
  }

  /** The last field of `least_significant(w0).then(w1).then(w2)...`. */
  function Chain(width: nat, widths: seq<nat>): (p: Pack)
    requires widths != [] && Total(widths) <= width && forall k :: 0 <= k < |widths| ==> widths[k] > 0
    ensures IsField(width, p, Total(widths[..|widths| - 1]), widths[|widths| - 1])
  {
    var init, n := widths[..|widths| - 1], widths[|widths| - 1];
    if init == [] then
      LeastSignificantIsField(width, n);
      LeastSignificant(width, n)
    else
      var p := Chain(width, init);
      ThenIsField(width, p, Total(init[..|init| - 1]), init[|init| - 1], n);
      Then(width, p, n)
  }

  lemma {:induction false} TotalGrows(widths: seq<nat>, j: nat, k: nat)
    requires j <= k <= |widths|
    ensures Total(widths[..j]) <= Total(widths[..k])
  {
    if j < k {
      TotalGrows(widths, j, k - 1);
      assert widths[..k][..k - 1] == widths[..k - 1];
    }
  }

  /** No two fields of a chain share a bit. */
  lemma ChainDisjoint(width: nat, widths: seq<nat>, j: nat, k: nat)
    requires j < k < |widths| && Total(widths) <= width && forall m :: 0 <= m < |widths| ==> widths[m] > 0
    ensures Total(widths[..j + 1]) <= Total(widths[..k]) <= Total(widths[..k + 1]) <= width
    ensures And(Chain(width, widths[..j + 1]).mask, Chain(width, widths[..k + 1]).mask) == 0
  {
    TotalGrows(widths, j + 1, k);
    TotalGrows(widths, k, k + 1);
    TotalGrows(widths, k + 1, |widths|);
    assert widths[..|widths|] == widths;
    assert widths[..j + 1][..j] == widths[..j] && widths[..k + 1][..k] == widths[..k];
    FieldsDisjoint(width, Chain(width, widths[..j + 1]), Total(widths[..j]), widths[j],
                   Chain(width, widths[..k + 1]), Total(widths[..k]), widths[k]);
  }

  lemma FieldsDisjoint(width: nat, p: Pack, lo: nat, n: nat, p': Pack, lo': nat, n': nat)
    requires IsField(width, p, lo, n) && IsField(width, p', lo', n') && lo + n <= lo'
    ensures And(p.mask, p'.mask) == 0
  {
    forall i: nat ensures Bit(And(p.mask, p'.mask), i) <==> Bit(0, i) {
      AndBits(p.mask, p'.mask, i);
      ZeroBits(i);
    }
    SameBits(And(p.mask, p'.mask), 0);
  }

  // ---------------------------------------------------------------------------
  // Registration tokens
  // ---------------------------------------------------------------------------

  /** The token `add_source` registers: slab key and generation. */
  function Token(width: nat, address: nat, key: nat, generation: nat): Option<nat>
    requires 0 < address && address + 7 <= width
  {
    var a := Chain(width, [address]);
    var g := Chain(width, [address, 7]);
    TokenFields(width, address);
    FieldMax(width, a, 0, address);
    FieldMax(width, g, address, 7);
    match PackIn(width, a, key, 0)
    case None => None
    case Some(word) => PackIn(width, g, generation, word)
  }

  /**
   With room to spare in the word a token gives back its key and its generation, and is never
   the all-ones token that wakes the driver.
   */
  lemma TokenRoundTrip(width: nat, address: nat, key: nat, generation: nat)
    requires 0 < address && address + 7 < width
    ensures Token(width, address, key, generation).Some? <==> key < Pow2(address) && generation < Pow2(7)
    ensures Token(width, address, key, generation).Some? ==>
              var token := Token(width, address, key, generation).value;
              && Unpack(Chain(width, [address]), token) == key
              && Unpack(Chain(width, [address, 7]), token) == generation
              && token < Pow2(width) - 1
  {
    var a, g := Chain(width, [address]), Chain(width, [address, 7]);
    TokenFields(width, address);
    UnpackInvertsPack(width, a, 0, address, key, 0);
    if key < Pow2(address) {
      var word := PackIn(width, a, key, 0).value;
      UnpackInvertsPack(width, g, address, 7, generation, word);
      if generation < Pow2(7) {
        PackKeepsOthers(width, g, address, 7, a, 0, address, generation, word);
        TwoFieldsBelow(width, a, g, address, key, generation);
      }
    }
  }

  /** Two fields packed into an empty word leave its top bit clear. */
  lemma TwoFieldsBelow(width: nat, a: Pack, g: Pack, address: nat, key: nat, generation: nat)
    requires address + 7 < width && IsField(width, a, 0, address) && IsField(width, g, address, 7)
    requires key < Pow2(address) && generation < Pow2(7)
    ensures Width(width, a) == address && Width(width, g) == 7 && PackIn(width, a, key, 0).Some?
    ensures var word := PackIn(width, a, key, 0).value;
            PackIn(width, g, generation, word).Some? && PackIn(width, g, generation, word).value < Pow2(width) - 1
  {
    PackBits(width, a, 0, address, key, 0, 0);
    var word := PackIn(width, a, key, 0).value;
    PackBits(width, g, address, 7, generation, word, 0);
    var token := PackIn(width, g, generation, word).value;
    forall i: nat ensures Bit(token, i) ==> i < address + 7 {
      PackBits(width, g, address, 7, generation, word, i);
      PackBits(width, a, 0, address, key, 0, i);
      ZeroBits(i);
    }
    LowBitsOnly(token, address + 7);
    PowGrows(address + 7, width);
  }

  lemma TokenFields(width: nat, address: nat)
    requires 0 < address && address + 7 <= width
    ensures Total([address, 7]) == address + 7 && Total([address]) == address
    ensures IsField(width, Chain(width, [address]), 0, address)
    ensures IsField(width, Chain(width, [address, 7]), address, 7)
  {
    assert [address, 7][..1] == [address] && [address][..0] == [];
    assert Total([]) == 0 && Total([address]) == Total([]) + address;
  }

  lemma {:induction false} PowGrows(m: nat, n: nat)
    requires m < n
    ensures 2 * Pow2(m) <= Pow2(n)
  {
    if m + 1 < n {
      PowGrows(m, n - 1);
    }
  }
}
