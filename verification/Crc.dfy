/** The bitwise CRC-32 of core.cpp and what it detects. */
module Crc {
  import opened Bytes

  const POLYNOMIAL: u32 := 0xedb8_8320

  function Pow2(k: nat): (p: nat)
    ensures p > 0
  {
    if k == 0 then 1 else 2 * Pow2(k - 1)
  }

  /** Exclusive or on naturals, bit by bit. */
  function Xor(a: nat, b: nat): (r: nat)
    decreases a + b
  {
    if a == 0 && b == 0 then 0
    else 2 * Xor(a / 2, b / 2) + (if a % 2 != b % 2 then 1 else 0)
  }

  lemma {:induction false} XorBound(a: nat, b: nat, k: nat)
    requires a < Pow2(k) && b < Pow2(k)
    ensures Xor(a, b) < Pow2(k)
    decreases k
  {
    if k > 0 && (a != 0 || b != 0) { XorBound(a / 2, b / 2, k - 1); }
  }

  lemma Pow2Of32()
    ensures Pow2(8) == 0x100 && Pow2(31) == 0x8000_0000 && Pow2(32) == 0x1_0000_0000
  {
    assert Pow2(4) == 16;
    assert Pow2(8) == 0x100;
    assert Pow2(12) == 0x1000;
    assert Pow2(16) == 0x1_0000;
    assert Pow2(20) == 0x10_0000;
    assert Pow2(24) == 0x100_0000;
    assert Pow2(28) == 0x1000_0000;
    assert Pow2(31) == 0x8000_0000;
  }

  lemma {:induction false} XorZero(a: nat)
    ensures Xor(a, 0) == a && Xor(0, a) == a
    decreases a
  {
    if a > 0 { XorZero(a / 2); }
  }

  lemma {:induction false} XorCommutes(a: nat, b: nat)
    ensures Xor(a, b) == Xor(b, a)
    decreases a + b
  {
    if a > 0 || b > 0 { XorCommutes(a / 2, b / 2); }
  }

  lemma {:induction false} XorAssociates(a: nat, b: nat, c: nat)
    ensures Xor(Xor(a, b), c) == Xor(a, Xor(b, c))
    decreases a + b + c
  {
    if a > 0 || b > 0 || c > 0 {
      XorAssociates(a / 2, b / 2, c / 2);
      XorBits(a, b);
      XorBits(b, c);
      XorBits(Xor(a, b), c);
      XorBits(a, Xor(b, c));
    }
  }

  lemma XorBits(a: nat, b: nat)
    ensures Xor(a, b) / 2 == Xor(a / 2, b / 2)
    ensures Xor(a, b) % 2 == (if a % 2 != b % 2 then 1 else 0)
  {
  }

  lemma {:induction false} XorSelf(a: nat)
    ensures Xor(a, a) == 0
    decreases a
  {
    if a > 0 { XorSelf(a / 2); }
  }

  lemma XorCancels(a: nat, b: nat, c: nat)
    requires Xor(a, c) == Xor(b, c)
    ensures a == b
  {
    XorAssociates(a, c, c);
    XorAssociates(b, c, c);
    XorSelf(c);
    XorZero(a);
    XorZero(b);
  }

  /** Xor of a word with its complement. */
  lemma {:induction false} XorComplement(a: nat, k: nat)
    requires a < Pow2(k)
    ensures Xor(a, Pow2(k) - 1 - a) == Pow2(k) - 1
    decreases k
  {
    if k > 0 {
      XorComplement(a / 2, k - 1);
      XorBits(a, Pow2(k) - 1 - a);
      assert (Pow2(k) - 1 - a) / 2 == Pow2(k - 1) - 1 - a / 2;
    }
  }

  /** high shifted left by k bits. */
  function Shift(high: nat, k: nat): nat {
    if k == 0 then high else 2 * Shift(high, k - 1)
  }

  lemma Shift8(high: nat)
    ensures Shift(high, 8) == 0x100 * high
  {
    assert Shift(high, 1) == 2 * high;
    assert Shift(high, 2) == 4 * high;
    assert Shift(high, 4) == 0x10 * high;
    assert Shift(high, 6) == 0x40 * high;
  }

  lemma {:induction false} ShiftsAdd(high: nat, m: nat, n: nat)
    ensures Shift(high, m + n) == Shift(Shift(high, m), n)
    decreases n
  {
    if n > 0 { ShiftsAdd(high, m, n - 1); }
  }

  lemma Shift31()
    ensures Shift(1, 31) == 0x8000_0000
  {
    Shift8(1);
    Shift8(0x100);
    Shift8(0x1_0000);
    ShiftsAdd(1, 8, 8);
    ShiftsAdd(1, 16, 8);
    ShiftsAdd(1, 24, 7);
    assert Shift(0x100_0000, 1) == 0x200_0000;
    assert Shift(0x100_0000, 3) == 0x800_0000;
    assert Shift(0x100_0000, 5) == 0x2000_0000;
  }

  /** Disjoint bits add. */
  lemma {:induction false} XorAdds(low: nat, high: nat, k: nat)
    requires low < Pow2(k)
    ensures Xor(low, Shift(high, k)) == low + Shift(high, k)
    decreases k
  {
    if k == 0 {
      XorZero(high);
    } else {
      XorAdds(low / 2, high, k - 1);
      XorBits(low, Shift(high, k));
    }
  }

  /** One shift of the CRC register. */
  function BitStep(c: nat): (r: nat) {
    if c % 2 == 1 then Xor(c / 2, POLYNOMIAL) else c / 2
  }

  function Steps(c: nat, n: nat): nat
    decreases n
  {
    if n == 0 then c else Steps(BitStep(c), n - 1)
  }

  function Absorb(c: nat, b: byte): nat {
    Steps(Xor(c, b), 8)
  }

  function Register(c: nat, data: seq<byte>): nat
    decreases |data|
  {
    if |data| == 0 then c else Register(Absorb(c, data[0]), data[1..])
  }

  lemma BitStepBound(c: nat)
    requires c < 0x1_0000_0000
    ensures BitStep(c) < 0x1_0000_0000
  {
    Pow2Of32();
    XorBound(c / 2, POLYNOMIAL, 32);
  }

  lemma {:induction false} StepsBound(c: nat, n: nat)
    requires c < 0x1_0000_0000
    ensures Steps(c, n) < 0x1_0000_0000
    decreases n
  {
    if n > 0 {
      BitStepBound(c);
      StepsBound(BitStep(c), n - 1);
    }
  }

  lemma AbsorbBound(c: nat, b: byte)
    requires c < 0x1_0000_0000
    ensures Xor(c, b) < 0x1_0000_0000 && Absorb(c, b) < 0x1_0000_0000
  {
    Pow2Of32();
    XorBound(c, b, 32);
    StepsBound(Xor(c, b), 8);
  }

  lemma {:induction false} RegisterBound(c: nat, data: seq<byte>)
    requires c < 0x1_0000_0000
    ensures Register(c, data) < 0x1_0000_0000
    decreases |data|
  {
    if |data| > 0 {
      AbsorbBound(c, data[0]);
      RegisterBound(Absorb(c, data[0]), data[1..]);
    }
  }

  function Crc32(data: seq<byte>): u32 {
    RegisterBound(U32_MAX, data);
    U32_MAX - Register(U32_MAX, data)
  }

  /** The firmware's loop: one byte xored in, eight shifts. */
  method Compute(data: seq<byte>) returns (crc: u32)
    ensures crc == Crc32(data)
  {
    crc := U32_MAX;
    for i := 0 to |data|
      invariant Register(crc, data[i..]) == Register(U32_MAX, data)
    {
      ghost var before := crc;
      AbsorbBound(crc, data[i]);
      crc := Xor(crc, data[i]);
      for bit := 0 to 8
        invariant Steps(crc, 8 - bit) == Absorb(before, data[i])
      {
        BitStepBound(crc);
        crc := if crc % 2 == 1 then Xor(crc / 2, POLYNOMIAL) else crc / 2;
      }
      assert data[i..][1..] == data[i + 1..];
    }
    RegisterBound(U32_MAX, data);
    crc := U32_MAX - crc;
  }

  // ---- Error detection ------------------------------------------------------------------

  /** The top bit tells whether the polynomial was mixed in, so a shift can be undone. */
  lemma BitStepInjective(a: nat, b: nat)
    requires a < 0x1_0000_0000 && b < 0x1_0000_0000
    requires BitStep(a) == BitStep(b)
    ensures a == b
  {
    TopBit(a / 2);
    TopBit(b / 2);
    if a % 2 == 1 && b % 2 == 1 { XorCancels(a / 2, b / 2, POLYNOMIAL); }
  }

  lemma TopBit(a: nat)
    requires a < 0x8000_0000
    ensures Xor(a, POLYNOMIAL) >= 0x8000_0000
  {
    Pow2Of32();
    var low := POLYNOMIAL - 0x8000_0000;
    Shift31();
    XorAdds(low, 1, 31);
    XorBound(a, low, 31);
    XorAdds(Xor(a, low), 1, 31);
    XorAssociates(a, low, 0x8000_0000);
  }

  lemma {:induction false} StepsInjective(a: nat, b: nat, n: nat)
    requires a < 0x1_0000_0000 && b < 0x1_0000_0000
    requires Steps(a, n) == Steps(b, n)
    ensures a == b
    decreases n
  {
    if n > 0 {
      BitStepBound(a);
      BitStepBound(b);
      StepsInjective(BitStep(a), BitStep(b), n - 1);
      BitStepInjective(a, b);
    }
  }

  /** A common suffix leaves different registers different. */
  lemma {:induction false} SuffixInjective(a: nat, b: nat, data: seq<byte>)
    requires a < 0x1_0000_0000 && b < 0x1_0000_0000
    requires Register(a, data) == Register(b, data)
    ensures a == b
    decreases |data|
  {
    if |data| > 0 {
      AbsorbBound(a, data[0]);
      AbsorbBound(b, data[0]);
      SuffixInjective(Absorb(a, data[0]), Absorb(b, data[0]), data[1..]);
      StepsInjective(Xor(a, data[0]), Xor(b, data[0]), 8);
      XorCancels(a, b, data[0]);
    }
  }

  lemma {:induction false} RegisterConcat(c: nat, x: seq<byte>, y: seq<byte>)
    ensures Register(c, x + y) == Register(Register(c, x), y)
    decreases |x|
  {
    if |x| == 0 {
      assert x + y == y;
    } else {
      assert (x + y)[1..] == x[1..] + y;
      RegisterConcat(Absorb(c, x[0]), x[1..], y);
    }
  }

  /** Bits above the shifted-out ones pass through unchanged. */
  lemma {:induction false} StepsPassHighBits(x: nat, high: nat, n: nat)
    ensures Steps(Xor(x, Shift(high, n)), n) == Xor(Steps(x, n), high)
    decreases n
  {
    if n > 0 {
      hide Xor;
      var y := Shift(high, n);
      XorBits(x, y);
      if x % 2 == 1 {
        XorAssociates(x / 2, y / 2, POLYNOMIAL);
        XorCommutes(y / 2, POLYNOMIAL);
        XorAssociates(x / 2, POLYNOMIAL, y / 2);
      }
      assert BitStep(Xor(x, y)) == Xor(BitStep(x), Shift(high, n - 1));
      StepsPassHighBits(BitStep(x), high, n - 1);
    }
  }

  lemma {:induction false} StepsAdd(c: nat, m: nat, n: nat)
    ensures Steps(c, m + n) == Steps(Steps(c, m), n)
    decreases m
  {
    if m > 0 { StepsAdd(BitStep(c), m - 1, n); }
  }

  function LeValue(w: seq<byte>): nat {
    if |w| == 0 then 0 else w[0] + 0x100 * LeValue(w[1..])
  }

  /** Absorbing a window is one xor of its little-endian value followed by plain shifts. */
  lemma {:induction false} WindowIsOneXor(r: nat, w: seq<byte>)
    ensures Register(r, w) == Steps(Xor(r, LeValue(w)), 8 * |w|)
    decreases |w|
  {
    hide Xor, Steps;
    if |w| == 0 {
      WindowEmpty(r);
    } else {
      var rest := LeValue(w[1..]);
      AbsorbBelow(r, w[0], rest);
      StepsAdd(Xor(r, LeValue(w)), 8, 8 * |w[1..]|);
      WindowIsOneXor(Absorb(r, w[0]), w[1..]);
    }
  }

  lemma WindowEmpty(r: nat)
    ensures Steps(Xor(r, 0), 0) == r
  {
    XorZero(r);
  }

  lemma AbsorbBelow(r: nat, b: byte, rest: nat)
    ensures Steps(Xor(r, b + 0x100 * rest), 8) == Xor(Absorb(r, b), rest)
  {
    hide Xor, Steps, Shift, Pow2;
    Pow2Of32();
    Shift8(rest);
    XorAdds(b, rest, 8);
    XorAssociates(r, b, 0x100 * rest);
    StepsPassHighBits(Xor(r, b), rest, 8);
  }

  lemma FourByteValue(w: seq<byte>)
    requires |w| == 4
    ensures LeValue(w) == FromLe32(w)
  {
    Pow2Of32();
    assert w[1..][1..] == w[2..] && w[2..][1..] == w[3..] && w[3..][1..] == [];
    var w1: int, w2: int, w3: int := w[1], w[2], w[3];
    assert LeValue(w[3..]) == w3;
    assert LeValue(w[2..]) == w2 + 0x100 * w3;
    assert LeValue(w[1..]) == w1 + 0x100 * (w2 + 0x100 * w3);
  }

  /** Two equal-length windows of at most four bytes that lead one register to one register are equal. */
  lemma WindowInjective(r: nat, v: seq<byte>, w: seq<byte>)
    requires r < 0x1_0000_0000 && |v| == |w| == 4
    requires Register(r, v) == Register(r, w)
    ensures v == w
  {
    WindowIsOneXor(r, v);
    WindowIsOneXor(r, w);
    FourByteValue(v);
    FourByteValue(w);
    Pow2Of32();
    XorBound(r, LeValue(v), 32);
    XorBound(r, LeValue(w), 32);
    StepsInjective(Xor(r, LeValue(v)), Xor(r, LeValue(w)), 32);
    XorCommutes(r, LeValue(v));
    XorCommutes(r, LeValue(w));
    XorCancels(LeValue(v), LeValue(w), r);
    FromLe32RoundTrip(v);
    FromLe32RoundTrip(w);
  }

  /** A record that ends in the stored CRC of everything before it. */
  predicate Sealed(record: seq<byte>) {
    |record| >= 4 && FromLe32(record[|record| - 4..]) == Crc32(record[..|record| - 4])
  }

  function Seal(data: seq<byte>): (record: seq<byte>)
    ensures |record| == |data| + 4 && data <= record
  {
    data + Le32(Crc32(data))
  }

  lemma SealIsSealed(data: seq<byte>)
    ensures Sealed(Seal(data))
  {
    assert Seal(data)[..|data|] == data && Seal(data)[|data|..] == Le32(Crc32(data));
    Le32RoundTrip(Crc32(data));
  }

  lemma SealedIsSeal(record: seq<byte>)
    requires Sealed(record)
    ensures record == Seal(record[..|record| - 4])
  {
    FromLe32RoundTrip(record[|record| - 4..]);
  }

  /** Values of the CRC-32 of IEEE 802.3 and zlib: they fix the first register, the
      polynomial, its direction and the last inversion. */
  lemma CheckValues()
    ensures Crc32([]) == 0
    ensures Crc32([0xff, 0xff, 0xff, 0xff]) == 0xffff_ffff
    ensures Crc32([0xff, 0xff, 0xff, 0xff, 0x80]) == 0x1247_7cdf
  {
    hide Xor, LeValue, Register, Steps;
    var ones: seq<byte> := [0xff, 0xff, 0xff, 0xff];
    NoBytes(U32_MAX);
    assert Register(U32_MAX, ones) == 0 by {
      FourByteValue(ones);
      WindowIsOneXor(U32_MAX, ones);
      assert FromLe32(ones) == 0xffff_ffff;
      XorSelf(U32_MAX);
      ZeroStays(32);
    }
    RegisterConcat(U32_MAX, ones, [0x80]);
    assert ones + [0x80] == [0xff, 0xff, 0xff, 0xff, 0x80];
    OneBit();
  }

  lemma NoBytes(c: nat)
    ensures Register(c, []) == c
  {
  }

  lemma {:induction false} ZeroStays(n: nat)
    ensures Steps(0, n) == 0
  {
    if n > 0 { ZeroStays(n - 1); }
  }

  lemma OneBit()
    ensures Register(0, [0x80]) == 0xedb8_8320
  {
    hide Xor;
    XorZero(0x80);
    XorZero(POLYNOMIAL);
    assert [0x80 as byte][1..] == [];
    assert Steps(0x80, 8) == Steps(0x10, 5) == Steps(0x2, 2) == Steps(0x1, 1) == Steps(POLYNOMIAL, 0);
  }

  const RESIDUE: nat := Steps(U32_MAX, 32)

  /** Running over a sealed record, stored CRC included, always ends in the same register. */
  lemma ConstantResidue(record: seq<byte>)
    requires Sealed(record)
    ensures Register(U32_MAX, record) == RESIDUE
  {
    hide Xor, Steps, Register, LeValue, Pow2;
    var n := |record| - 4;
    var r := Register(U32_MAX, record[..n]);
    RegisterBound(U32_MAX, record[..n]);
    assert record == record[..n] + record[n..];
    RegisterConcat(U32_MAX, record[..n], record[n..]);
    WindowIsOneXor(r, record[n..]);
    FourByteValue(record[n..]);
    Pow2Of32();
    XorComplement(r, 32);
  }

  /** Sealed records of one length that agree outside four consecutive bytes are the same record,
      wherever the window lies, across the stored CRC included. */
  lemma BurstDetected(x: seq<byte>, y: seq<byte>, p: nat)
    requires Sealed(x) && Sealed(y) && |x| == |y|
    requires forall i | 0 <= i < |x| && !(p <= i < p + 4) :: x[i] == y[i]
    ensures x == y
  {
    var q := if p + 4 <= |x| then p else |x| - 4;
    SlicesAgree(x, y, 0, q);
    SlicesAgree(x, y, q + 4, |x|);
    CutAround(x, q);
    CutAround(y, q);
    WindowDetected(x[0..q], x[q..q + 4], y[q..q + 4], x[q + 4..|x|]);
  }

  lemma SlicesAgree(x: seq<byte>, y: seq<byte>, from: nat, to: nat)
    requires from <= to <= |x| == |y|
    requires forall i | from <= i < to :: x[i] == y[i]
    ensures x[from..to] == y[from..to]
  {
  }

  lemma CutAround(x: seq<byte>, q: nat)
    requires q + 4 <= |x|
    ensures x == x[0..q] + (x[q..q + 4] + x[q + 4..|x|])
  {
  }

  lemma WindowDetected(prefix: seq<byte>, v: seq<byte>, w: seq<byte>, suffix: seq<byte>)
    requires |v| == |w| == 4
    requires Sealed(prefix + (v + suffix)) && Sealed(prefix + (w + suffix))
    ensures v == w
  {
    var r := Register(U32_MAX, prefix);
    RegisterConcat(U32_MAX, prefix, v + suffix);
    RegisterConcat(U32_MAX, prefix, w + suffix);
    RegisterConcat(r, v, suffix);
    RegisterConcat(r, w, suffix);
    ConstantResidue(prefix + (v + suffix));
    ConstantResidue(prefix + (w + suffix));
    RegisterBound(U32_MAX, prefix);
    RegisterBound(r, v);
    RegisterBound(r, w);
    SuffixInjective(Register(r, v), Register(r, w), suffix);
    WindowInjective(r, v, w);
  }

  function FirstDifference(x: seq<byte>, y: seq<byte>): (i: nat)
    requires |x| == |y| && x != y
    ensures i < |x| && x[i] != y[i] && forall k | 0 <= k < i :: x[k] == y[k]
  {
    if x[0] != y[0] then 0
    else
      assert x == [x[0]] + x[1..] && y == [y[0]] + y[1..];
      1 + FirstDifference(x[1..], y[1..])
  }

  /** Different sealed records of one length differ at two places at least four apart. */
  lemma DistinctSealedRecordsDifferFarApart(x: seq<byte>, y: seq<byte>)
    requires Sealed(x) && Sealed(y) && |x| == |y| && x != y
    ensures exists i, j :: 0 <= i && i + 4 <= j < |x| && x[i] != y[i] && x[j] != y[j]
  {
    var i := FirstDifference(x, y);
    if forall j | i + 4 <= j < |x| :: x[j] == y[j] {
      BurstDetected(x, y, i);
    }
  }
}
