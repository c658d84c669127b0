/** Bytes, 32-bit words and the wrapping millisecond clock.
    Integers carry the widths of the firmware's types; every wrap is written out. */
module Bytes {
  type byte = x: int | 0 <= x < 0x100
  type u32 = x: int | 0 <= x < 0x1_0000_0000

  const U32_MAX: u32 := 0xffff_ffff

  datatype Option<+T> = None | Some(value: T)

  function Zeros(n: nat): (z: seq<byte>)
    ensures |z| == n && forall i :: 0 <= i < n ==> z[i] == 0
  {
    seq(n, _ => 0)
  }

  /** The four bytes put32 stores, least significant first. */
  function Le32(v: u32): (b: seq<byte>)
    ensures |b| == 4
  {
    [v % 0x100, v / 0x100 % 0x100, v / 0x1_0000 % 0x100, v / 0x100_0000]
  }

  function FromLe32(b: seq<byte>): u32
    requires |b| == 4
  {
    var b0: int, b1: int, b2: int, b3: int := b[0], b[1], b[2], b[3];
    b0 + 0x100 * b1 + 0x1_0000 * b2 + 0x100_0000 * b3
  }

  lemma Le32RoundTrip(v: u32)
    ensures FromLe32(Le32(v)) == v
  {
    var v1: int, v2: int, v3: int := v / 0x100, v / 0x1_0000, v / 0x100_0000;
    assert v1 / 0x100 == v2;
    assert v2 / 0x100 == v3;
    assert v == v % 0x100 + 0x100 * v1;
    assert v1 == v1 % 0x100 + 0x100 * v2;
    assert v2 == v2 % 0x100 + 0x100 * v3;
  }

  lemma FromLe32RoundTrip(b: seq<byte>)
    requires |b| == 4
    ensures Le32(FromLe32(b)) == b
  {
    Le32Digits(b[0], b[1], b[2], b[3]);
  }

  lemma Le32Digits(b0: int, b1: int, b2: int, b3: int)
    requires 0 <= b0 < 0x100 && 0 <= b1 < 0x100 && 0 <= b2 < 0x100 && 0 <= b3 < 0x100
    ensures var v := b0 + 0x100 * b1 + 0x1_0000 * b2 + 0x100_0000 * b3;
            v % 0x100 == b0 && v / 0x100 % 0x100 == b1 && v / 0x1_0000 % 0x100 == b2 && v / 0x100_0000 == b3
  {
    var v := b0 + 0x100 * b1 + 0x1_0000 * b2 + 0x100_0000 * b3;
    var v1 := b1 + 0x100 * b2 + 0x1_0000 * b3;
    var v2 := b2 + 0x100 * b3;
    assert v == 0x100 * v1 + b0;
    assert v / 0x100 == v1;
    assert v == 0x1_0000 * v2 + (0x100 * b1 + b0);
    assert v / 0x1_0000 == v2;
  }

  /** A C string held in a buffer: the bytes before the first NUL. */
  function CStr(b: seq<byte>): (s: seq<byte>)
    ensures s <= b && 0 !in s
    ensures |s| < |b| ==> b[|s|] == 0
  {
    if |b| == 0 || b[0] == 0 then [] else [b[0]] + CStr(b[1..])
  }

  /** A C string in a zero-filled buffer of the given capacity. */
  function Padded(s: seq<byte>, capacity: nat): (b: seq<byte>)
    requires |s| <= capacity
    ensures |b| == capacity && s <= b
    ensures forall i :: |s| <= i < capacity ==> b[i] == 0
  {
    s + Zeros(capacity - |s|)
  }

  lemma CStrOfPadded(s: seq<byte>, capacity: nat)
    requires |s| < capacity && 0 !in s
    ensures CStr(Padded(s, capacity)) == s
  {
    CStrUnique(Padded(s, capacity), s);
  }

  lemma {:induction false} CStrUnique(b: seq<byte>, s: seq<byte>)
    requires s <= b && 0 !in s
    requires |s| < |b| ==> b[|s|] == 0
    ensures CStr(b) == s
  {
    if |s| > 0 {
      assert b[0] == s[0] && s[0] in s;
      forall x | x in s[1..] ensures x != 0 { assert x in s; }
      CStrUnique(b[1..], s[1..]);
      assert s == [s[0]] + s[1..];
    }
  }
}

/** millis() is the true time modulo 2^32; timeouts subtract with wrap-around. */
module Clock {
  import opened Bytes

  function Millis(t: nat): u32 {
    t % 0x1_0000_0000
  }

  predicate Elapsed(now: u32, since: u32, duration: u32) {
    (now - since) % 0x1_0000_0000 >= duration
  }

  /** An elapsed timeout never fires early, however often the counter wrapped. The converse
      needs the true gap to be below 2^32 ms. */
  lemma ElapsedIsSound(t: nat, since: nat, duration: u32)
    requires since <= t
    ensures Elapsed(Millis(t), Millis(since), duration) ==> t - since >= duration
    ensures t - since < 0x1_0000_0000 ==> (Elapsed(Millis(t), Millis(since), duration) <==> t - since >= duration)
  {
    var d := t % 0x1_0000_0000 - since % 0x1_0000_0000;
    var q := t / 0x1_0000_0000 - since / 0x1_0000_0000;
    assert t - since == q * 0x1_0000_0000 + d;
    if d >= 0 {
      assert d % 0x1_0000_0000 == d;
    } else {
      assert d % 0x1_0000_0000 == d + 0x1_0000_0000;
    }
  }
}
