/** UTF-8 as core.cpp checks it and as sections 3 and 4 of RFC 3629 define it. */
module Utf8 {
  import opened Bytes

  /** A Unicode scalar value. */
  predicate Scalar(cp: nat) {
    cp <= 0x10_ffff && !(0xd800 <= cp <= 0xdfff)
  }

  /** Scalar values that are neither C0 controls nor DEL. */
  predicate Printable(cp: nat) {
    Scalar(cp) && cp >= 0x20 && cp != 0x7f
  }

  function Encode(cp: nat): (b: seq<byte>)
    requires Scalar(cp)
    ensures 1 <= |b| <= 4
  {
    if cp < 0x80 then [cp]
    else if cp < 0x800 then [0xc0 + cp / 0x40, 0x80 + cp % 0x40]
    else if cp < 0x1_0000 then [0xe0 + cp / 0x1000, 0x80 + cp / 0x40 % 0x40, 0x80 + cp % 0x40]
    else [0xf0 + cp / 0x4_0000, 0x80 + cp / 0x1000 % 0x40, 0x80 + cp / 0x40 % 0x40, 0x80 + cp % 0x40]
  }

  predicate AllScalar(cps: seq<nat>) {
    forall i | 0 <= i < |cps| :: Scalar(cps[i])
  }

  predicate AllPrintable(cps: seq<nat>)
    ensures AllPrintable(cps) ==> AllScalar(cps)
  {
    forall i | 0 <= i < |cps| :: Printable(cps[i])
  }

  function EncodeAll(cps: seq<nat>): seq<byte>
    requires AllScalar(cps)
  {
    if |cps| == 0 then [] else Encode(cps[0]) + EncodeAll(cps[1..])
  }

  predicate Continuation(b: byte) {
    0x80 <= b < 0xc0
  }

  /** The character at index i, or the terminating NUL. */
  function At(s: seq<byte>, i: nat): byte {
    if i < |s| then s[i] else 0
  }

  /** Folds count continuation bytes at index i of s into cp. */
  function Fold(s: seq<byte>, i: nat, cp: nat, count: nat): Option<nat>
    decreases count
  {
    if count == 0 then Some(cp)
    else if !Continuation(At(s, i)) then None
    else Fold(s, i + 1, cp * 0x40 + At(s, i) % 0x40, count - 1)
  }

  /** Number of continuation bytes a lead byte announces. */
  function Following(lead: byte): Option<nat> {
    if lead < 0x80 then (if lead < 0x20 || lead == 0x7f then None else Some(0))
    else if 0xc2 <= lead <= 0xdf then Some(1)
    else if 0xe0 <= lead <= 0xef then Some(2)
    else if 0xf0 <= lead <= 0xf4 then Some(3)
    else None
  }

  function LeadBits(lead: byte, count: nat): nat {
    if count == 0 then lead else if count == 1 then lead % 0x20 else if count == 2 then lead % 0x10 else lead % 8
  }

  function Minimum(count: nat): nat {
    if count == 0 then 0 else if count == 1 then 0x80 else if count == 2 then 0x800 else 0x1_0000
  }

  /** The first character of s: its code point and length, if the checker accepts it. */
  function First(s: seq<byte>): Option<(nat, nat)>
    requires |s| > 0
  {
    match Following(s[0])
    case None => None
    case Some(count) =>
      match Fold(s, 1, LeadBits(s[0], count), count)
      case None => None
      case Some(cp) => if cp < Minimum(count) || !Scalar(cp) then None else Some((cp, 1 + count))
  }

  /** Base-64 digits of a code point. */
  lemma Digits(a: nat, b: nat, c: nat, d: nat)
    requires b < 0x40 && c < 0x40 && d < 0x40
    ensures var cp := ((a * 0x40 + b) * 0x40 + c) * 0x40 + d;
            cp / 0x4_0000 == a && cp / 0x1000 == a * 0x40 + b && cp / 0x1000 % 0x40 == b &&
            cp / 0x40 == (a * 0x40 + b) * 0x40 + c && cp / 0x40 % 0x40 == c && cp % 0x40 == d
  {
    var cp := ((a * 0x40 + b) * 0x40 + c) * 0x40 + d;
    assert cp / 0x40 == (a * 0x40 + b) * 0x40 + c;
    assert cp / 0x1000 == a * 0x40 + b;
  }

  lemma DigitsOf(cp: nat)
    ensures cp / 0x1000 == cp / 0x4_0000 * 0x40 + cp / 0x1000 % 0x40
    ensures cp / 0x40 == cp / 0x1000 * 0x40 + cp / 0x40 % 0x40
    ensures cp == cp / 0x40 * 0x40 + cp % 0x40
  {
  }

  /** What folding the continuation bytes amounts to. */
  lemma FoldUnrolled(s: seq<byte>, lead: nat, count: nat)
    requires count <= 3
    ensures count == 0 ==> Fold(s, 1, lead, count) == Some(lead)
    ensures count == 1 ==> Fold(s, 1, lead, count) ==
                           if Continuation(At(s, 1)) then Some(lead * 0x40 + At(s, 1) % 0x40) else None
    ensures count == 2 ==> Fold(s, 1, lead, count) ==
                           if Continuation(At(s, 1)) && Continuation(At(s, 2))
                           then Some((lead * 0x40 + At(s, 1) % 0x40) * 0x40 + At(s, 2) % 0x40) else None
    ensures count == 3 ==> Fold(s, 1, lead, count) ==
                           if Continuation(At(s, 1)) && Continuation(At(s, 2)) && Continuation(At(s, 3))
                           then
                             Some(((lead * 0x40 + At(s, 1) % 0x40) * 0x40 + At(s, 2) % 0x40) * 0x40 + At(s, 3) % 0x40)
                           else None
  {
    var c1 := lead * 0x40 + At(s, 1) % 0x40;
    var c2 := c1 * 0x40 + At(s, 2) % 0x40;
    if count == 2 {
      assert Fold(s, 2, c1, 1) == if Continuation(At(s, 2)) then Fold(s, 3, c2, 0) else None;
    } else if count == 3 {
      assert Fold(s, 2, c1, 2) == if Continuation(At(s, 2)) then Fold(s, 3, c2, 1) else None;
      assert Fold(s, 3, c2, 1) == if Continuation(At(s, 3)) then Fold(s, 4, c2 * 0x40 + At(s, 3) % 0x40, 0) else None;
    }
  }

  lemma FirstIsEncoding(s: seq<byte>)
    requires |s| > 0 && First(s).Some?
    ensures var (cp, n) := First(s).value;
            Printable(cp) && n <= |s| && s[..n] == Encode(cp)
  {
    var (cp, n) := First(s).value;
    FoldUnrolled(s, LeadBits(s[0], n - 1), n - 1);
    assert n <= |s|;
    if n == 1 {
      assert s[..1] == [s[0]];
    } else if n == 2 {
      Rebuild2(s[0], s[1]);
      assert s[..2] == [s[0], s[1]];
    } else if n == 3 {
      Rebuild3(s[0], s[1], s[2]);
      assert s[..3] == [s[0], s[1], s[2]];
    } else {
      Rebuild4(s[0], s[1], s[2], s[3]);
      assert s[..4] == [s[0], s[1], s[2], s[3]];
    }
  }

  lemma Rebuild2(b0: byte, b1: byte)
    requires 0xc2 <= b0 <= 0xdf && Continuation(b1)
    ensures var cp := b0 % 0x20 * 0x40 + b1 % 0x40;
            0x80 <= cp < 0x800 && Encode(cp) == [b0, b1]
  {
    Digits(0, 0, b0 % 0x20, b1 % 0x40);
  }

  lemma Rebuild3(b0: byte, b1: byte, b2: byte)
    requires 0xe0 <= b0 <= 0xef && Continuation(b1) && Continuation(b2)
    ensures var cp := (b0 % 0x10 * 0x40 + b1 % 0x40) * 0x40 + b2 % 0x40;
            cp < 0x1_0000 && (cp >= 0x800 && Scalar(cp) ==> Encode(cp) == [b0, b1, b2])
  {
    Digits(0, b0 % 0x10, b1 % 0x40, b2 % 0x40);
  }

  lemma Rebuild4(b0: byte, b1: byte, b2: byte, b3: byte)
    requires 0xf0 <= b0 <= 0xf4 && Continuation(b1) && Continuation(b2) && Continuation(b3)
    ensures var cp := ((b0 % 8 * 0x40 + b1 % 0x40) * 0x40 + b2 % 0x40) * 0x40 + b3 % 0x40;
            cp >= 0x1_0000 && Scalar(cp) ==> Encode(cp) == [b0, b1, b2, b3]
  {
    Digits(b0 % 8, b1 % 0x40, b2 % 0x40, b3 % 0x40);
  }

  lemma FirstOfEncoding(cp: nat, rest: seq<byte>)
    requires Printable(cp)
    ensures First(Encode(cp) + rest) == Some((cp, |Encode(cp)|))
  {
    var s := Encode(cp) + rest;
    var e := Encode(cp);
    EncodingShape(cp);
    assert At(s, 0) == e[0] && forall i | 0 <= i < |e| :: At(s, i) == e[i];
    FoldUnrolled(s, LeadBits(e[0], |e| - 1), |e| - 1);
  }

  /** The lead byte announces the length and the payload bits spell the code point. */
  lemma EncodingShape(cp: nat)
    requires Printable(cp)
    ensures var e := Encode(cp);
            Following(e[0]) == Some(|e| - 1) && Minimum(|e| - 1) <= cp &&
            (forall i | 1 <= i < |e| :: Continuation(e[i])) &&
            (|e| == 1 ==> e[0] == cp) &&
            (|e| == 2 ==> cp == LeadBits(e[0], 1) * 0x40 + e[1] % 0x40) &&
            (|e| == 3 ==> cp == (LeadBits(e[0], 2) * 0x40 + e[1] % 0x40) * 0x40 + e[2] % 0x40) &&
            (|e| == 4 ==> cp == ((LeadBits(e[0], 3) * 0x40 + e[1] % 0x40) * 0x40 + e[2] % 0x40) * 0x40 + e[3] % 0x40)
  {
    if cp < 0x80 {
    } else if cp < 0x800 {
      Parts2(cp / 0x40, cp % 0x40);
    } else if cp < 0x1_0000 {
      DigitsOf(cp);
      Parts3(cp / 0x1000, cp / 0x40 % 0x40, cp % 0x40);
    } else {
      DigitsOf(cp);
      Parts4(cp / 0x4_0000, cp / 0x1000 % 0x40, cp / 0x40 % 0x40, cp % 0x40);
    }
  }

  lemma Parts2(a: nat, b: nat)
    requires 2 <= a < 0x20 && b < 0x40
    ensures Following(0xc0 + a) == Some(1) && LeadBits(0xc0 + a, 1) == a && (0x80 + b) % 0x40 == b
  {
  }

  lemma Parts3(a: nat, b: nat, c: nat)
    requires a < 0x10 && b < 0x40 && c < 0x40
    ensures Following(0xe0 + a) == Some(2) && LeadBits(0xe0 + a, 2) == a
    ensures (0x80 + b) % 0x40 == b && (0x80 + c) % 0x40 == c
  {
  }

  lemma Parts4(a: nat, b: nat, c: nat, d: nat)
    requires a <= 4 && b < 0x40 && c < 0x40 && d < 0x40
    ensures Following(0xf0 + a) == Some(3) && LeadBits(0xf0 + a, 3) == a
    ensures (0x80 + b) % 0x40 == b && (0x80 + c) % 0x40 == c && (0x80 + d) % 0x40 == d
  {
  }

  predicate Accepts(s: seq<byte>)
    decreases |s|
  {
    |s| == 0 ||
    (First(s).Some? &&
     var n := First(s).value.1;
     FirstIsEncoding(s);
     Accepts(s[n..]))
  }

  /** The inner loop: count continuation bytes from index p on. */
  method CheckTail(text: seq<byte>, start: nat, lead: nat, count: nat) returns (ok: bool, cp: nat, p: nat)
    requires start < |text| && count <= 3
    ensures ok <==> Fold(text[start..], 1, lead, count).Some?
    ensures ok ==> Fold(text[start..], 1, lead, count) == Some(cp) && p == start + 1 + count <= |text|
  {
    cp, p := lead, start + 1;
    var left := count;
    while left > 0
      invariant 0 <= left <= count && p == start + 1 + count - left <= |text|
      invariant Fold(text[start..], p - start, cp, left) == Fold(text[start..], 1, lead, count)
    {
      if !Continuation(At(text, p)) { return false, cp, p; }
      cp := cp * 0x40 + At(text, p) % 0x40;
      p := p + 1;
      left := left - 1;
    }
    return true, cp, p;
  }

  /** The checking loop of core.cpp over a NUL-free string. */
  method Check(text: seq<byte>) returns (ok: bool)
    requires 0 !in text
    ensures ok == Accepts(text)
  {
    hide Fold;
    var p := 0;
    while p < |text|
      invariant 0 <= p <= |text|
      invariant Accepts(text) == Accepts(text[p..])
    {
      ghost var start := p;
      var cp: nat := text[p];
      if cp < 0x80 {
        if cp < 0x20 || cp == 0x7f { return false; }
        assert Fold(text[start..], 1, cp, 0) == Some(cp) by { FoldNothing(text[start..], cp); }
        assert text[start..][1..] == text[start + 1..];
        p := p + 1;
        continue;
      }
      var count := 0;
      var minimum := 0;
      if 0xc2 <= cp <= 0xdf { cp := cp % 0x20; count := 1; minimum := 0x80; }
      else if 0xe0 <= cp <= 0xef { cp := cp % 0x10; count := 2; minimum := 0x800; }
      else if 0xf0 <= cp <= 0xf4 { cp := cp % 8; count := 3; minimum := 0x1_0000; }
      else { return false; }
      var more;
      more, cp, p := CheckTail(text, p, cp, count);
      if !more { return false; }
      if cp < minimum || cp > 0x10_ffff || 0xd800 <= cp <= 0xdfff { return false; }
      assert text[start..][1 + count..] == text[p..];
    }
    return true;
  }

  lemma FoldNothing(s: seq<byte>, cp: nat)
    ensures Fold(s, 1, cp, 0) == Some(cp)
  {
  }

  lemma {:induction false} AcceptsEncodings(cps: seq<nat>)
    requires AllPrintable(cps)
    ensures Accepts(EncodeAll(cps))
  {
    if |cps| > 0 {
      FirstOfEncoding(cps[0], EncodeAll(cps[1..]));
      AcceptsEncodings(cps[1..]);
      assert EncodeAll(cps)[|Encode(cps[0])|..] == EncodeAll(cps[1..]);
    }
  }

  /** Reads an accepted string back into code points. */
  lemma {:induction false} Decoded(s: seq<byte>) returns (cps: seq<nat>)
    requires Accepts(s)
    ensures AllPrintable(cps)
    ensures EncodeAll(cps) == s
    decreases |s|
  {
    if |s| == 0 {
      cps := [];
    } else {
      FirstIsEncoding(s);
      var (cp, n) := First(s).value;
      var rest := Decoded(s[n..]);
      cps := [cp] + rest;
      assert cps[1..] == rest;
      assert s == s[..n] + s[n..];
    }
  }

  ghost predicate IsText(s: seq<byte>) {
    exists cps: seq<nat> :: AllPrintable(cps) && EncodeAll(cps) == s
  }

  /** The checker accepts exactly the encodings of printable scalar values. */
  lemma AcceptsExactlyUtf8(s: seq<byte>)
    ensures Accepts(s) <==> IsText(s)
  {
    if Accepts(s) {
      var cps := Decoded(s);
    }
    if IsText(s) {
      var cps: seq<nat> :| AllPrintable(cps) && EncodeAll(cps) == s;
      AcceptsEncodings(cps);
    }
  }
}
