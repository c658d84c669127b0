/** The cursor that core.cpp moves over the request body, proved against the functions of module Json. */
module JsonReader {
  import opened Bytes
  import Utf8
  import opened Wifi
  import opened Json

  class Reader {
    const text: seq<byte>
    var p: nat

    constructor (text: seq<byte>)
      ensures this.text == text && p == 0
    {
      this.text := text;
      p := 0;
    }

    ghost predicate Valid()
      reads this
    {
      p <= |text|
    }

    function Rest(): seq<byte>
      requires p <= |text|
      reads this
    {
      text[p..]
    }

    method Space()
      requires Valid()
      modifies this
      ensures Valid() && Rest() == SkipSpace(old(Rest()))
    {
      while p < |text| && IsSpace(text[p])
        invariant Valid() && SkipSpace(Rest()) == SkipSpace(old(Rest()))
        decreases |text| - p
      {
        assert text[p..][1..] == text[p + 1..];
        p := p + 1;
      }
    }

    method TakeMark(c: byte) returns (ok: bool)
      requires Valid()
      modifies this
      ensures Valid()
      ensures ok == Take(old(Rest()), c).Some?
      ensures ok ==> Rest() == Take(old(Rest()), c).value
    {
      Space();
      if p == |text| || text[p] != c { return false; }
      assert text[p..][1..] == text[p + 1..];
      p := p + 1;
      return true;
    }

    method ReadNumberValue() returns (ok: bool, out: u32)
      requires Valid()
      modifies this
      ensures Valid()
      ensures ok == ReadNumber(old(Rest())).Some?
      ensures ok ==> (out, Rest()) == ReadNumber(old(Rest())).value
    {
      hide Decimal, Number, DigitRun, SkipSpace;
      Space();
      ghost var s := Rest();
      NumberExactly(s);
      if p == |text| || !IsDigit(text[p]) { return false, 0; }
      if text[p] == 0x30 && p + 1 < |text| && IsDigit(text[p + 1]) {
        assert s[1] == text[p + 1];
        return false, 0;
      }
      assert |s| > 1 ==> s[1] == text[p + 1];
      ok, out := Accumulate();
    }

    /** The digit loop with its overflow guard. */
    method Accumulate() returns (ok: bool, out: u32)
      requires Valid()
      modifies this
      ensures Valid()
      ensures var s := old(Rest()); var run := s[..DigitRun(s)];
              ok == (Decimal(run) <= U32_MAX) && (ok ==> out == Decimal(run) && Rest() == s[DigitRun(s)..])
    {
      hide Decimal, DigitRun;
      out := 0;
      ghost var s := Rest();
      ghost var start := p;
      ghost var run := DigitRun(s);
      DecimalEmpty(s);
      while p < |text| && IsDigit(text[p])
        invariant start <= p <= |text| && p - start <= run && s == text[start..]
        invariant out == Decimal(s[..p - start])
        decreases |text| - p
      {
        var digit := text[p] - 0x30;
        assert s[p - start] == text[p];
        DecimalStep(s, p - start);
        p := p + 1;
        DecimalGrows(s, p - start, run);
        if out > (U32_MAX - digit) / 10 { return false, 0; }
        out := out * 10 + digit;
      }
      assert p - start == run by {
        if p < |text| { assert s[p - start] == text[p]; }
      }
      assert s[run..] == text[p..];
      return true, out;
    }

    method ReadWord() returns (ok: bool, value: nat)
      requires Valid()
      modifies this
      ensures Valid()
      ensures ok == Word(old(Rest())).Some?
      ensures ok ==> (value, Rest()) == Word(old(Rest())).value
    {
      value := 0;
      ghost var s := Rest();
      ghost var start := p;
      for i := 0 to 4
        invariant p == start + i <= |text|
        invariant forall j | 0 <= j < i :: HexDigit(s[j]).Some?
        invariant value == HexPrefix(s, i)
      {
        if p == |text| || HexDigit(text[p]).None? {
          if |s| >= 4 { assert s[..4][i] == text[p]; }
          return false, 0;
        }
        assert s[i] == text[p];
        value := value * 0x10 + HexDigit(text[p]).value;
        p := p + 1;
      }
      HexPrefixIsValue(s);
      assert s[4..] == text[p..];
      return true, value;
    }

    /** The scalar value of the escape after \u, with its low surrogate if it needs one. */
    method ReadEscape() returns (ok: bool, cp: nat)
      requires Valid()
      modifies this
      ensures Valid()
      ensures ok == UnicodePiece(old(Rest())).Some?
      ensures ok ==> Utf8.Scalar(cp) && cp != 0 && UnicodePiece(old(Rest())).value.0.Value() == Utf8.Encode(cp)
      ensures ok ==> Rest() == UnicodePiece(old(Rest())).value.1
    {
      ok, cp := ReadWord();
      if !ok { return false, 0; }
      if 0xd800 <= cp <= 0xdbff {
        ghost var r := Rest();
        if |text| - p < 2 { return false, 0; }
        p := p + 1;
        if text[p - 1] != BACKSLASH { return false, 0; }
        p := p + 1;
        if text[p - 1] != LOWER_U { return false, 0; }
        assert r[2..] == Rest();
        var low;
        ok, low := ReadWord();
        if !ok || low < 0xdc00 || low > 0xdfff { return false, 0; }
        cp := 0x1_0000 + (cp - 0xd800) * 0x400 + (low - 0xdc00);
      } else if 0xdc00 <= cp <= 0xdfff {
        return false, 0;
      }
      if cp == 0 { return false, 0; }
      return true, cp;
    }

    method ReadString(capacity: nat) returns (ok: bool, out: seq<byte>)
      requires Valid() && capacity > 0
      modifies this
      ensures Valid()
      ensures ok == String(old(Rest()), capacity).Some?
      ensures ok ==> (out, Rest()) == String(old(Rest()), capacity).value
    {
      hide UnicodePiece, Utf8.Encode, SkipSpace;
      out := [];
      ok := TakeMark(QUOTE);
      if !ok { return false, []; }
      ghost var s := Rest();
      while p < |text|
        invariant Valid() && 0 !in out && |out| < capacity
        invariant Chars(Rest(), out, capacity) == Chars(s, [], capacity)
        decreases |text| - p
      {
        ghost var before := Rest();
        var c := text[p];
        p := p + 1;
        assert before[1..] == Rest();
        if c == QUOTE { return true, out; }
        if c < 0x20 { return false, []; }
        if c == BACKSLASH {
          if p == |text| { return false, []; }
          c := text[p];
          p := p + 1;
          assert before[2..] == Rest();
          if c == LOWER_U {
            var cp;
            ok, cp := ReadEscape();
            if !ok { return false, []; }
            var bytes := Encoded(cp);
            if |out| + |bytes| >= capacity { return false, []; }
            out := out + bytes;
            continue;
          }
          if c != QUOTE && c != BACKSLASH && c != SLASH { return false, []; }
        }
        if |out| + 1 >= capacity { return false, []; }
        out := out + [c];
      }
      return false, [];
    }
  }

  /** The bytes the escape branch appends: a lead byte and a loop over the lower six-bit groups. */
  method Encoded(cp: nat) returns (out: seq<byte>)
    requires Utf8.Scalar(cp)
    ensures out == Utf8.Encode(cp)
  {
    var bytes := if cp < 0x80 then 1 else if cp < 0x800 then 2 else if cp < 0x1_0000 then 3 else 4;
    if bytes == 1 { return [cp]; }
    var lead: byte :=
      if bytes == 2 then 0xc0 + cp / 0x40 else if bytes == 3 then 0xe0 + cp / 0x1000 else 0xf0 + cp / 0x4_0000;
    out := [lead];
    var n := bytes - 1;
    while n > 0
      invariant 0 <= n < bytes && |out| == bytes - n
      invariant out == Utf8.Encode(cp)[..bytes - n]
    {
      var group: byte := 0x80 + (if n == 1 then cp else if n == 2 then cp / 0x40 else cp / 0x1000) % 0x40;
      out := out + [group];
      n := n - 1;
    }
  }

  function HexPrefix(s: seq<byte>, i: nat): nat
    requires i <= |s| && forall j | 0 <= j < i :: HexDigit(s[j]).Some?
  {
    if i == 0 then 0 else HexPrefix(s, i - 1) * 0x10 + HexDigit(s[i - 1]).value
  }

  lemma HexPrefixIsValue(s: seq<byte>)
    requires |s| >= 4 && forall j | 0 <= j < 4 :: HexDigit(s[j]).Some?
    ensures HexWord(s[..4]) && HexValue(s[..4]) == HexPrefix(s, 4)
  {
    assert HexPrefix(s, 1) == HexDigit(s[0]).value;
    assert HexPrefix(s, 2) == HexDigit(s[0]).value * 0x10 + HexDigit(s[1]).value;
  }

  /** The three tests the reader makes are together the test for a number. */
  lemma NumberExactly(s: seq<byte>)
    ensures Number(s[..DigitRun(s)]) <==>
            |s| > 0 && IsDigit(s[0]) && !(s[0] == 0x30 && |s| > 1 && IsDigit(s[1])) &&
                Decimal(s[..DigitRun(s)]) <= U32_MAX
  {
    hide Decimal;
    if |s| > 1 && IsDigit(s[0]) {
      assert DigitRun(s) == 1 + DigitRun(s[1..]);
      assert IsDigit(s[1]) <==> DigitRun(s[1..]) > 0;
    }
  }

  lemma DecimalEmpty(s: seq<byte>)
    ensures Decimal(s[..0]) == 0
  {
  }

  lemma DecimalStep(s: seq<byte>, i: nat)
    requires i < |s| && forall j | 0 <= j <= i :: IsDigit(s[j])
    ensures Decimal(s[..i + 1]) == Decimal(s[..i]) * 10 + (s[i] - 0x30)
  {
    assert s[..i + 1][..i] == s[..i];
  }

  lemma {:induction false} DecimalGrows(s: seq<byte>, i: nat, n: nat)
    requires i <= n <= |s| && forall j | 0 <= j < n :: IsDigit(s[j])
    ensures Decimal(s[..i]) <= Decimal(s[..n])
    decreases n - i
  {
    if i < n {
      DecimalStep(s, n - 1);
      DecimalGrows(s, i, n - 1);
    }
  }

  /** The loop body of parseConfig: one key, its colon and its value. */
  method ReadField(parser: Reader, candidate: WifiConfig) returns (ok: bool, name: Name, next: WifiConfig)
    requires parser.Valid()
    modifies parser
    ensures parser.Valid()
    ensures ok == Field(old(parser.Rest()), candidate).Some?
    ensures ok ==> (name, next, parser.Rest()) == Field(old(parser.Rest()), candidate).value
  {
    hide String, Take, ReadNumber;
    name, next := SsidName, candidate;
    var key;
    ok, key := parser.ReadString(24);
    if !ok { return; }
    ok := parser.TakeMark(COLON);
    if !ok { return; }
    if key == SSID {
      name := SsidName;
      var ssid;
      ok, ssid := parser.ReadString(33);
      if ok { next := candidate.(ssid := ssid); }
    } else if key == PASSWORD {
      name := PasswordName;
      var password;
      ok, password := parser.ReadString(65);
      if ok { next := candidate.(password := password); }
    } else if key == REVISION {
      name := RevisionName;
      var revision;
      ok, revision := parser.ReadNumberValue();
      if ok { next := candidate.(revision := revision); }
    } else {
      ok := false;
    }
  }

  method ParseConfigText(json: seq<byte>) returns (ok: bool, config: WifiConfig)
    ensures ok == ParseConfig(json).Some?
    ensures ok ==> config == ParseConfig(json).value
  {
    hide Field, Take;
    config := BLANK;
    if |json| == 0 || |json| > BODY_MAX || 0 in json { return false, BLANK; }
    var parser := new Reader(json);
    assert parser.Rest() == json;
    var candidate: WifiConfig := BLANK;
    var fields: set<Name> := {};
    ok := parser.TakeMark(OPEN);
    if !ok { return false, BLANK; }
    ghost var s := parser.Rest();
    for i := 0 to 3
      invariant parser.Valid()
      invariant FieldsFrom(parser.Rest(), i, fields, candidate) == FieldsFrom(s, 0, {}, BLANK)
    {
      if i > 0 {
        ok := parser.TakeMark(COMMA);
        if !ok { return false, BLANK; }
      }
      var name;
      ok, name, candidate := ReadField(parser, candidate);
      if !ok || name in fields { return false, BLANK; }
      fields := fields + {name};
    }
    ok := parser.TakeMark(CLOSE);
    if !ok { return false, BLANK; }
    parser.Space();
    if parser.p != |parser.text| || !ValidWifi(candidate) { return false, BLANK; }
    return true, candidate;
  }
}
