/** The HTTP body decoder of github_core.cpp: state and byte step. */
module Chunked {
  import opened Bytes
  import opened Wifi

  const CR: byte := 0x0d
  const LF: byte := 0x0a
  const LINE_MAX := 127
  const TRAILER_MAX := 2048

  datatype Head = Head(hasLength: bool, length: u32, chunked: bool)

  /** line holds line_[0..lineUsed_]. */
  datatype State = State(left: u32, limit: u32, received: u32, chunked: bool, done: bool, valid: bool,
                         phase: nat, line: seq<byte>, trailer: nat)
  {
    /** What the field types and the code keep for any header. */
    predicate Shape() {
      && received <= limit
      && phase <= 4
      && |line| <= LINE_MAX
      && trailer <= (if valid then TRAILER_MAX else TRAILER_MAX + 1)
      && (phase == 1 || phase == 2 || phase == 3 ==> line == [])
    }

    /** What holds once the header was valid: announced bytes always fit the limit. */
    predicate Bounded() {
      && Shape()
      && (valid && !chunked ==> phase == 0)
      && (valid && !done && (!chunked || phase == 1) ==> left > 0 && received + left <= limit)
    }
  }

  function Start(head: Head, limit: u32): (s: State)
    ensures s.Bounded()
  {
    var valid := head.chunked || (head.hasLength && head.length <= limit);
    State(head.length, limit, 0, head.chunked, valid && !head.chunked && head.length == 0, valid, 0, [], 0)
  }

  predicate AllHex(s: seq<byte>) {
    forall i | 0 <= i < |s| :: HexDigit(s[i]).Some?
  }

  function Hex(acc: nat, s: seq<byte>): nat
    requires AllHex(s)
    decreases |s|
  {
    if |s| == 0 then acc else Hex(acc * 0x10 + HexDigit(s[0]).value, s[1..])
  }

  /** The digit loop over a size line, with its guard against exceeding the room left. */
  function SizeLoop(left: nat, s: seq<byte>, room: nat): Option<nat>
    decreases |s|
  {
    if |s| == 0 then Some(left)
    else if HexDigit(s[0]).None? || left > room / 0x10 || left * 0x10 + HexDigit(s[0]).value > room then None
    else SizeLoop(left * 0x10 + HexDigit(s[0]).value, s[1..], room)
  }

  lemma {:induction false} HexGrows(acc: nat, s: seq<byte>)
    requires AllHex(s)
    ensures Hex(acc, s) >= acc
    decreases |s|
  {
    if |s| > 0 { HexGrows(acc * 0x10 + HexDigit(s[0]).value, s[1..]); }
  }

  /** The guarded loop yields the number exactly when it is one and fits. */
  lemma {:induction false} SizeLoopExact(left: nat, s: seq<byte>, room: nat)
    requires left <= room
    ensures SizeLoop(left, s, room) == if AllHex(s) && Hex(left, s) <= room then Some(Hex(left, s)) else None
    decreases |s|
  {
    if |s| > 0 {
      if HexDigit(s[0]).Some? {
        var next := left * 0x10 + HexDigit(s[0]).value;
        if next <= room {
          SizeLoopExact(next, s[1..], room);
        } else if AllHex(s) {
          HexGrows(next, s[1..]);
        }
      }
    }
  }

  function Fail(s: State): State {
    s.(valid := false)
  }

  /** The end of a size line (phase 0) or trailer line (phase 4); line ends in LF. */
  function EndLine(s: State): (r: (State, bool))
    requires s.Shape() && |s.line| > 0
    ensures r.0.Shape()
  {
    if |s.line| < 2 || s.line[|s.line| - 2] != CR then (Fail(s), false)
    else if s.phase == 4 then (s.(done := s.done || |s.line| == 2, line := []), true)
    else
      var text := CStr(s.line[..|s.line| - 2]);
      if |text| == 0 then (Fail(s), false)
      else
        SizeLoopExact(0, text, s.limit - s.received);
        match SizeLoop(0, text, s.limit - s.received)
        case None => (Fail(s), false)
        case Some(left) =>
          (s.(left := left, phase := if left > 0 then 1 else 4, trailer := if left > 0 then 0 else s.trailer,
              line := []), true)
  }

  /** Body::feed: the next state, whether the byte was accepted and whether it is payload. */
  function Feed(s: State, b: byte): (r: (State, bool, bool))
    requires s.Shape()
    ensures r.0.Shape() && r.0.limit == s.limit
    ensures !s.valid ==> r == (s, false, false)
    ensures !r.1 ==> !r.2 && (r.0.valid ==> s.done)
  {
    if !s.valid || s.done then (s, false, false)
    else if !s.chunked || s.phase == 1 then
      if s.left == 0 || s.received >= s.limit then (Fail(s), false, false)
      else
        var next := s.(left := s.left - 1, received := s.received + 1);
        if next.left > 0 then (next, true, true)
        else if s.chunked then (next.(phase := 2), true, true)
        else (next.(done := true), true, true)
    else if s.phase == 2 then
      if b != CR then (Fail(s), false, false) else (s.(phase := 3), true, false)
    else if s.phase == 3 then
      if b != LF then (Fail(s), false, false) else (s.(phase := 0), true, false)
    else
      var counted := s.(trailer := s.trailer + 1);
      if s.trailer + 1 > TRAILER_MAX || |s.line| + 1 >= 128 then (Fail(counted), false, false)
      else
        var stored := counted.(line := s.line + [b]);
        if b != LF then (stored, true, false)
        else
          var (next, ok) := EndLine(stored);
          (next, ok, false)
  }

  /** Feeds the whole input, collecting payload; None as soon as a byte is refused. */
  function FeedAll(s: State, input: seq<byte>, out: seq<byte>): Option<(State, seq<byte>)>
    requires s.Shape()
    decreases |input|
  {
    if |input| == 0 then Some((s, out))
    else
      var (next, ok, payload) := Feed(s, input[0]);
      if !ok then None else FeedAll(next, input[1..], if payload then out + [input[0]] else out)
  }

  lemma FeedKeepsBounds(s: State, b: byte)
    requires s.Bounded()
    ensures Feed(s, b).0.Bounded()
  {
    if s.valid && !s.done && s.chunked && (s.phase == 0 || s.phase == 4) && |s.line| + 1 < 128 &&
        s.trailer < TRAILER_MAX {
      EndLineKeepsBounds(s.(trailer := s.trailer + 1, line := s.line + [b]));
    }
  }

  lemma EndLineKeepsBounds(s: State)
    requires s.Shape() && s.valid && !s.done && s.chunked && |s.line| > 0 && (s.phase == 0 || s.phase == 4)
    ensures EndLine(s).0.Bounded()
  {
    hide CStr, SizeLoop, Hex, AllHex;
    if |s.line| >= 2 {
      var text := CStr(s.line[..|s.line| - 2]);
      SizeLoopExact(0, text, s.limit - s.received);
    }
  }

  /** Received and announced bytes never exceed the limit on any input, every payload byte is counted,
      and a failed decoder accepts nothing more. */
  lemma {:induction false} FeedAllKeepsBounds(s: State, input: seq<byte>, out: seq<byte>)
    requires s.Bounded()
    ensures var r := FeedAll(s, input, out);
            r.Some? ==> var (next, all) := r.value;
                        next.Bounded() && next.limit == s.limit && out <= all &&
                        next.received - s.received == |all| - |out|
    ensures !s.valid ==> (FeedAll(s, input, out).Some? <==> input == [])
    decreases |input|
  {
    if |input| > 0 {
      FeedKeepsBounds(s, input[0]);
      var (next, ok, payload) := Feed(s, input[0]);
      if ok { FeedAllKeepsBounds(next, input[1..], if payload then out + [input[0]] else out); }
    }
  }

  class Body {
    var left: u32
    const limit: u32
    var received: u32
    const chunked: bool
    var done: bool
    var valid: bool
    var phase: nat
    var lineUsed: nat
    var trailerBytes: nat
    const line: array<byte>

    ghost predicate Valid()
      reads this, line
    {
      line.Length == 128 && lineUsed <= LINE_MAX && Abstract().Shape()
    }

    ghost function Abstract(): State
      requires line.Length == 128 && lineUsed <= LINE_MAX
      reads this, line
    {
      State(left, limit, received, chunked, done, valid, phase, line[..lineUsed], trailerBytes)
    }

    constructor (head: Head, limit: u32)
      ensures Valid() && fresh(line) && Abstract() == Start(head, limit)
    {
      this.limit, chunked := limit, head.chunked;
      left, received := head.length, 0;
      phase, lineUsed, trailerBytes := 0, 0, 0;
      var usable := head.chunked || (head.hasLength && head.length <= limit);
      valid, done := usable, usable && !head.chunked && head.length == 0;
      line := new byte[128](_ => 0);
    }

    method FeedByte(b: byte) returns (ok: bool, payload: bool)
      requires Valid()
      modifies this, line
      ensures Valid() && (Abstract(), ok, payload) == Feed(old(Abstract()), b)
    {
      hide SizeLoop, CStr;
      payload := false;
      if !valid || done { return false, false; }
      if !chunked || phase == 1 {
        if left == 0 || received >= limit { valid := false; return false, false; }
        left := left - 1;
        received := received + 1;
        payload := true;
        if left == 0 {
          if chunked { phase := 2; } else { done := true; }
        }
        return true, payload;
      }
      if phase == 2 {
        if b != CR { valid := false; return false, false; }
        phase := 3;
        return true, false;
      }
      if phase == 3 {
        if b != LF { valid := false; return false, false; }
        phase := 0;
        return true, false;
      }
      ok := FeedLine(b);
      return ok, false;
    }

    method FeedLine(b: byte) returns (ok: bool)
      requires Valid() && valid && !done && chunked && (phase == 0 || phase == 4)
      modifies this, line
      ensures Valid() && (Abstract(), ok, false) == Feed(old(Abstract()), b)
    {
      ghost var before := Abstract();
      trailerBytes := trailerBytes + 1;
      if trailerBytes > TRAILER_MAX || lineUsed + 1 >= 128 { valid := false; return false; }
      line[lineUsed] := b;
      lineUsed := lineUsed + 1;
      assert line[..lineUsed] == before.line + [b];
      if b != LF { return true; }
      ok := FinishLine();
    }

    /** The digits up to the NUL that ends the line as a C string. */
    method ReadSize(ghost text: seq<byte>) returns (ok: bool, size: u32, c: nat)
      requires Valid() && lineUsed >= 2 && text == CStr(line[..lineUsed - 2])
      ensures ok == SizeLoop(0, text, limit - received).Some?
      ensures ok ==> size == SizeLoop(0, text, limit - received).value && c == |text|
    {
      hide CStr, HexDigit;
      var room := limit - received;
      var value: nat := 0;
      assert forall i | 0 <= i < |text| :: text[i] in text;
      size, c := 0, 0;
      while c < lineUsed - 2 && line[c] != 0
        invariant 0 <= c <= |text| && value <= room
        invariant SizeLoop(value, text[c..], room) == SizeLoop(0, text, room)
        decreases lineUsed - c
      {
        assert c < |text| && line[c] == text[c];
        var digit := HexDigit(line[c]);
        if digit.None? || value > room / 0x10 || value * 0x10 + digit.value > room { return false, 0, c; }
        value := value * 0x10 + digit.value;
        assert text[c..][1..] == text[c + 1..];
        c := c + 1;
      }
      return true, value, c;
    }

    method FinishLine() returns (ok: bool)
      requires Valid() && valid && !done && chunked && (phase == 0 || phase == 4) && lineUsed > 0
      modifies this, line
      ensures Valid() && (Abstract(), ok) == EndLine(old(Abstract()))
    {
      hide SizeLoop, CStr;
      ghost var stored := Abstract();
      if lineUsed < 2 || line[lineUsed - 2] != CR { valid := false; return false; }
      if phase == 4 {
        if lineUsed == 2 { done := true; }
        lineUsed := 0;
        return true;
      }
      ghost var text := CStr(stored.line[..lineUsed - 2]);
      assert stored.line[..lineUsed - 2] == line[..lineUsed - 2];
      var ok1, size, c := ReadSize(text);
      if !ok1 { valid := false; return false; }
      if c == 0 { valid := false; return false; }
      left := size;
      phase := if left > 0 then 1 else 4;
      if left > 0 { trailerBytes := 0; }
      lineUsed := 0;
      return true;
    }
  }
}
