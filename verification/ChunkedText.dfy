/** What the body decoder accepts, within its line and trailer limits: the chunked bodies of section 7.1 of RFC 9112
    without chunk extensions, and besides them bodies whose size lines continue behind a NUL or whose trailer lines are
    no field lines. */
module ChunkedText {
  import opened Bytes
  import opened Wifi
  import opened Chunked

  /** The content of a line, without its CRLF. */
  predicate Line(l: seq<byte>) {
    LF !in l && |l| + 2 <= LINE_MAX
  }

  /** A line the decoder reads as a size: hexadecimal digits up to the end or up to a NUL. */
  predicate SizeLine(l: seq<byte>) {
    Line(l) && |CStr(l)| > 0 && AllHex(CStr(l))
  }

  function SizeOf(l: seq<byte>): nat
    requires SizeLine(l)
  {
    Hex(0, CStr(l))
  }

  /** tchar of section 5.6.2 of RFC 9110. */
  predicate TokenChar(c: byte) {
    0x30 <= c <= 0x39 || 0x41 <= c <= 0x5a || 0x61 <= c <= 0x7a ||
    c in [0x21, 0x23, 0x24, 0x25, 0x26, 0x27, 0x2a, 0x2b, 0x2d, 0x2e, 0x5e, 0x5f, 0x60, 0x7c, 0x7e]
  }

  /** Visible characters, obs-text, space and tab: what may follow the colon, white space around the value included. */
  predicate FieldChar(c: byte) {
    0x21 <= c <= 0x7e || 0x80 <= c || c == 0x20 || c == 0x09
  }

  const NAME_END: byte := 0x3a

  /** field-line of section 5 of RFC 9112: a token, a colon, and field characters. */
  predicate FieldLine(l: seq<byte>) {
    exists n :: 0 < n < |l| && l[n] == NAME_END && (forall i | 0 <= i < n :: TokenChar(l[i])) &&
                forall i | n < i < |l| :: FieldChar(l[i])
  }

  datatype Chunk = Chunk(size: seq<byte>, data: seq<byte>) {
    predicate Ok() {
      SizeLine(size) && SizeOf(size) == |data| > 0
    }

    /** The chunk as sent, followed by r. */
    function Then(r: seq<byte>): seq<byte> {
      size + ([CR, LF] + (data + ([CR, LF] + r)))
    }
  }

  function ChunksThen(chunks: seq<Chunk>, r: seq<byte>): seq<byte> {
    if |chunks| == 0 then r else chunks[0].Then(ChunksThen(chunks[1..], r))
  }

  function DataOf(chunks: seq<Chunk>): seq<byte> {
    if |chunks| == 0 then [] else chunks[0].data + DataOf(chunks[1..])
  }

  function Trailers(trailers: seq<seq<byte>>): seq<byte> {
    if |trailers| == 0 then [CR, LF] else trailers[0] + ([CR, LF] + Trailers(trailers[1..]))
  }

  datatype Encoded = Encoded(chunks: seq<Chunk>, last: seq<byte>, trailers: seq<seq<byte>>) {
    /** The last size line counts towards the trailer limit. */
    predicate Ok(limit: u32) {
      && (forall i | 0 <= i < |chunks| :: chunks[i].Ok())
      && |DataOf(chunks)| <= limit
      && SizeLine(last) && SizeOf(last) == 0
      && (forall i | 0 <= i < |trailers| :: Line(trailers[i]) && |trailers[i]| > 0)
      && |last| + 2 + |Trailers(trailers)| <= TRAILER_MAX
    }

    /** No size line hides anything behind a NUL. */
    predicate Plain() {
      0 !in last && forall i | 0 <= i < |chunks| :: 0 !in chunks[i].size
    }

    /** Every trailer line is a field line. */
    predicate Fields() {
      forall i | 0 <= i < |trailers| :: FieldLine(trailers[i])
    }

    function Text(): seq<byte> {
      ChunksThen(chunks, last + ([CR, LF] + Trailers(trailers)))
    }
  }

  predicate AtLine(s: State) {
    s.Shape() && s.valid && !s.done && s.chunked && (s.phase == 0 || s.phase == 4)
  }

  // ---- Every encoding is decoded ------------------------------------------------------------

  lemma {:induction false} FeedsChars(s: State, l: seq<byte>, r: seq<byte>, out: seq<byte>)
    requires AtLine(s) && LF !in l && |s.line| + |l| <= LINE_MAX && s.trailer + |l| <= TRAILER_MAX
    ensures var next := s.(line := s.line + l, trailer := s.trailer + |l|);
            next.Shape() && FeedAll(s, l + r, out) == FeedAll(next, r, out)
    decreases |l|
  {
    hide EndLine;
    if |l| == 0 {
      assert l + r == r && s.line + l == s.line;
    } else {
      assert (l + r)[1..] == l[1..] + r && (l + r)[0] == l[0];
      assert l[0] in l;
      var next := s.(line := s.line + [l[0]], trailer := s.trailer + 1);
      assert Feed(s, l[0]) == (next, true, false);
      assert next.line + l[1..] == s.line + l;
      FeedsChars(next, l[1..], r, out);
    }
  }

  lemma FeedsLine(s: State, l: seq<byte>, r: seq<byte>, out: seq<byte>)
    requires AtLine(s) && s.line == [] && Line(l) && s.trailer + |l| + 2 <= TRAILER_MAX
    ensures var stored := s.(line := l + [CR, LF], trailer := s.trailer + |l| + 2);
            stored.Shape() &&
            FeedAll(s, l + ([CR, LF] + r), out) ==
            if EndLine(stored).1 then FeedAll(EndLine(stored).0, r, out) else None
  {
    hide EndLine, CStr;
    var stored := s.(line := l + [CR, LF], trailer := s.trailer + |l| + 2);
    var cut := l + [CR];
    assert [] + cut == cut;
    assert l + ([CR, LF] + r) == cut + ([LF] + r);
    FeedsChars(s, cut, [LF] + r, out);
    var mid := s.(line := cut, trailer := s.trailer + |cut|);
    assert ([LF] + r)[1..] == r;
    assert cut + [LF] == l + [CR, LF];
    assert Feed(mid, LF) == (EndLine(stored).0, EndLine(stored).1, false);
  }

  lemma SizeLineEnds(s: State, l: seq<byte>)
    requires AtLine(s) && s.phase == 0 && s.line == l + [CR, LF] && SizeLine(l) && SizeOf(l) <= s.limit - s.received
    ensures var n: u32 := SizeOf(l);
            EndLine(s) == (s.(left := n, phase := if n > 0 then 1 else 4,
                              trailer := if n > 0 then 0 else s.trailer, line := []), true)
  {
    assert s.line[..|s.line| - 2] == l;
    SizeLoopExact(0, CStr(l), s.limit - s.received);
  }

  lemma {:induction false} FeedsData(s: State, d: seq<byte>, r: seq<byte>, out: seq<byte>)
    requires s.Shape() && s.valid && !s.done && s.chunked && s.phase == 1
    requires 0 < |d| == s.left && s.received + s.left <= s.limit
    ensures var next := s.(left := 0, received := s.received + |d|, phase := 2);
            next.Shape() && FeedAll(s, d + r, out) == FeedAll(next, r, out + d)
    decreases |d|
  {
    assert (d + r)[1..] == d[1..] + r && (d + r)[0] == d[0];
    assert out + [d[0]] + d[1..] == out + d;
    var next := s.(left := s.left - 1, received := s.received + 1);
    if |d| == 1 {
      assert d[1..] + r == r && out + [d[0]] == out + d;
      assert Feed(s, d[0]) == (next.(phase := 2), true, true);
    } else {
      assert Feed(s, d[0]) == (next, true, true);
      FeedsData(next, d[1..], r, out + [d[0]]);
    }
  }

  lemma FeedsBreak(s: State, r: seq<byte>, out: seq<byte>)
    requires s.Shape() && s.valid && !s.done && s.chunked && s.phase == 2
    ensures s.(phase := 0).Shape() && FeedAll(s, [CR, LF] + r, out) == FeedAll(s.(phase := 0), r, out)
  {
    var t := [CR, LF] + r;
    assert t[1..] == [LF] + r && ([LF] + r)[1..] == r;
    assert Feed(s, CR) == (s.(phase := 3), true, false);
    assert Feed(s.(phase := 3), LF) == (s.(phase := 0), true, false);
  }

  /** Ready for a size line. */
  predicate Fresh(s: State) {
    AtLine(s) && s.phase == 0 && s.line == [] && s.trailer == 0
  }

  lemma FeedsChunk(s: State, c: Chunk, r: seq<byte>, out: seq<byte>)
    requires Fresh(s) && c.Ok() && s.received + |c.data| <= s.limit
    ensures var next := s.(left := 0, received := s.received + |c.data|);
            Fresh(next) && FeedAll(s, c.Then(r), out) == FeedAll(next, r, out + c.data)
  {
    hide EndLine, Feed;
    var n: u32 := |c.data|;
    FeedsLine(s, c.size, c.data + ([CR, LF] + r), out);
    SizeLineEnds(s.(line := c.size + [CR, LF], trailer := |c.size| + 2), c.size);
    var inData := s.(left := n, phase := 1, trailer := 0, line := []);
    FeedsData(inData, c.data, [CR, LF] + r, out);
    FeedsBreak(inData.(left := 0, received := s.received + n, phase := 2), r, out + c.data);
  }

  lemma {:induction false} FeedsTrailers(s: State, trailers: seq<seq<byte>>, out: seq<byte>)
    requires AtLine(s) && s.phase == 4 && s.line == [] && s.trailer + |Trailers(trailers)| <= TRAILER_MAX
    requires forall i | 0 <= i < |trailers| :: Line(trailers[i]) && |trailers[i]| > 0
    ensures var r := FeedAll(s, Trailers(trailers), out);
            r.Some? && r.value.0.done && r.value.0.valid && r.value.1 == out
    decreases |trailers|
  {
    if |trailers| == 0 {
      var empty: seq<byte> := [];
      assert Trailers(trailers) == empty + ([CR, LF] + empty);
      assert empty + [CR, LF] == [CR, LF];
      FeedsLine(s, empty, empty, out);
    } else {
      var l := trailers[0];
      FeedsLine(s, l, Trailers(trailers[1..]), out);
      var stored := s.(line := l + [CR, LF], trailer := s.trailer + |l| + 2);
      assert EndLine(stored) == (stored.(line := []), true);
      FeedsTrailers(stored.(line := []), trailers[1..], out);
    }
  }

  lemma {:induction false} FeedsChunks(s: State, chunks: seq<Chunk>, r: seq<byte>, out: seq<byte>) returns (left: u32)
    requires Fresh(s) && (forall i | 0 <= i < |chunks| :: chunks[i].Ok())
    requires s.received + |DataOf(chunks)| <= s.limit
    ensures var next := s.(left := left, received := s.received + |DataOf(chunks)|);
            Fresh(next) && FeedAll(s, ChunksThen(chunks, r), out) == FeedAll(next, r, out + DataOf(chunks))
    decreases |chunks|
  {
    hide Feed, FeedAll;
    if |chunks| == 0 {
      left := s.left;
      assert out + [] == out;
      assert s.(left := left, received := s.received + |DataOf(chunks)|) == s;
    } else {
      var c := chunks[0];
      var rest := ChunksThen(chunks[1..], r);
      FeedsChunk(s, c, rest, out);
      var next := s.(left := 0, received := s.received + |c.data|);
      left := FeedsChunks(next, chunks[1..], r, out + c.data);
      assert out + c.data + DataOf(chunks[1..]) == out + DataOf(chunks);
      assert s.(left := left, received := s.received + |DataOf(chunks)|) ==
             next.(left := left, received := next.received + |DataOf(chunks[1..])|);
    }
  }

  function ChunkedStart(limit: u32): State {
    Start(Head(false, 0, true), limit)
  }

  /** The whole text is accepted, it completes the body, and the payload bytes are data. */
  predicate Decodes(limit: u32, text: seq<byte>, data: seq<byte>) {
    var r := FeedAll(ChunkedStart(limit), text, []);
    r.Some? && r.value.0.done && r.value.1 == data
  }

  lemma DecodesEncoding(limit: u32, body: Encoded)
    requires body.Ok(limit)
    ensures Decodes(limit, body.Text(), DataOf(body.chunks))
  {
    hide Feed, FeedAll;
    var s := ChunkedStart(limit);
    var end := End(body);
    var left := FeedsChunks(s, body.chunks, end, []);
    var data := DataOf(body.chunks);
    assert [] + data == data;
    var next := s.(left := left, received := s.received + |data|);
    FeedsLine(next, body.last, Trailers(body.trailers), data);
    var stored := next.(line := body.last + [CR, LF], trailer := |body.last| + 2);
    SizeLineEnds(stored, body.last);
    FeedsTrailers(stored.(left := 0, phase := 4, line := []), body.trailers, data);
  }

  function End(body: Encoded): seq<byte> {
    body.last + ([CR, LF] + Trailers(body.trailers))
  }

  // ---- Nothing else is ------------------------------------------------------------------------

  predicate Completes(s: State, t: seq<byte>, out: seq<byte>)
    requires s.Shape()
  {
    var r := FeedAll(s, t, out);
    r.Some? && r.value.0.done
  }

  lemma Step(s: State, t: seq<byte>, out: seq<byte>)
    requires s.Shape() && !s.done && Completes(s, t, out)
    ensures |t| > 0 && t == [t[0]] + t[1..] && s.valid && Feed(s, t[0]).1
    ensures var next := if Feed(s, t[0]).2 then out + [t[0]] else out;
            FeedAll(s, t, out) == FeedAll(Feed(s, t[0]).0, t[1..], next) && Completes(Feed(s, t[0]).0, t[1..], next)
  {
  }

  /** A completing input in a line contains the end of that line. */
  lemma {:induction false} LineFed(s: State, t: seq<byte>, out: seq<byte>) returns (l: seq<byte>, r: seq<byte>)
    requires AtLine(s) && Completes(s, t, out)
    ensures LF !in l && t == l + ([LF] + r)
    ensures |s.line| + |l| + 1 <= LINE_MAX && s.trailer + |l| + 1 <= TRAILER_MAX
    ensures var stored := s.(line := s.line + l + [LF], trailer := s.trailer + |l| + 1);
            stored.Shape() && EndLine(stored).1 && FeedAll(s, t, out) == FeedAll(EndLine(stored).0, r, out)
    decreases |t|
  {
    hide EndLine;
    Step(s, t, out);
    if t[0] == LF {
      l, r := [], t[1..];
      assert t == [] + ([LF] + r);
      assert s.line + [] + [LF] == s.line + [LF];
    } else {
      var next := s.(line := s.line + [t[0]], trailer := s.trailer + 1);
      assert Feed(s, t[0]) == (next, true, false);
      var more;
      more, r := LineFed(next, t[1..], out);
      l := [t[0]] + more;
      assert t == l + ([LF] + r);
      assert s.line + l + [LF] == next.line + more + [LF];
    }
  }

  /** A line that ends well ends in CR. */
  lemma EndsInCr(s: State, cut: seq<byte>) returns (l: seq<byte>)
    requires s.Shape() && s.line == cut + [LF] && EndLine(s).1
    ensures cut == l + [CR] && cut + [LF] == l + [CR, LF]
  {
    hide CStr, SizeLoop;
    l := cut[..|cut| - 1];
    assert s.line[|s.line| - 2] == cut[|cut| - 1];
  }

  /** The same, for a whole line. */
  lemma WholeLineFed(s: State, t: seq<byte>, out: seq<byte>) returns (l: seq<byte>, r: seq<byte>)
    requires AtLine(s) && s.line == [] && Completes(s, t, out)
    ensures Line(l) && s.trailer + |l| + 2 <= TRAILER_MAX && t == l + ([CR, LF] + r)
    ensures var stored := s.(line := l + [CR, LF], trailer := s.trailer + |l| + 2);
            stored.Shape() && EndLine(stored).1 && FeedAll(s, t, out) == FeedAll(EndLine(stored).0, r, out)
  {
    hide Feed, FeedAll, EndLine;
    var cut;
    cut, r := LineFed(s, t, out);
    var stored := s.(line := s.line + cut + [LF], trailer := s.trailer + |cut| + 1);
    assert s.line + cut + [LF] == cut + [LF];
    l := EndsInCr(stored, cut);
    assert t == l + ([CR, LF] + r);
  }

  lemma {:induction false} DataFed(s: State, t: seq<byte>, out: seq<byte>) returns (d: seq<byte>, r: seq<byte>)
    requires s.Shape() && !s.done && s.chunked && s.phase == 1 && s.left > 0 && Completes(s, t, out)
    ensures |d| == s.left && s.received + |d| <= s.limit && t == d + r
    ensures var next := s.(left := 0, received := s.received + |d|, phase := 2);
            next.Shape() && FeedAll(s, t, out) == FeedAll(next, r, out + d)
    decreases |t|
  {
    Step(s, t, out);
    var next := s.(left := s.left - 1, received := s.received + 1);
    if next.left == 0 {
      assert Feed(s, t[0]) == (next.(phase := 2), true, true);
      d, r := [t[0]], t[1..];
    } else {
      assert Feed(s, t[0]) == (next, true, true);
      var more;
      more, r := DataFed(next, t[1..], out + [t[0]]);
      d := [t[0]] + more;
      assert t == d + r;
      assert out + [t[0]] + more == out + d;
    }
  }

  lemma BreakFed(s: State, t: seq<byte>, out: seq<byte>) returns (r: seq<byte>)
    requires s.Shape() && !s.done && s.chunked && s.phase == 2 && Completes(s, t, out)
    ensures t == [CR, LF] + r && s.(phase := 0).Shape() && FeedAll(s, t, out) == FeedAll(s.(phase := 0), r, out)
  {
    Step(s, t, out);
    var next := s.(phase := 3);
    assert Feed(s, CR) == (next, true, false);
    Step(next, t[1..], out);
    assert Feed(next, LF) == (s.(phase := 0), true, false);
    r := t[2..];
    assert t[1..][1..] == r;
  }

  lemma {:induction false} TrailersFed(s: State, t: seq<byte>, out: seq<byte>) returns (trailers: seq<seq<byte>>)
    requires AtLine(s) && s.phase == 4 && s.line == [] && Completes(s, t, out)
    ensures t == Trailers(trailers) && s.trailer + |t| <= TRAILER_MAX
    ensures forall i | 0 <= i < |trailers| :: Line(trailers[i]) && |trailers[i]| > 0
    ensures FeedAll(s, t, out).value.1 == out
    decreases |t|
  {
    hide Feed;
    var l, r := WholeLineFed(s, t, out);
    var stored := s.(line := l + [CR, LF], trailer := s.trailer + |l| + 2);
    var next := EndLine(stored).0;
    if |l| == 0 {
      DoneTakesNothing(next, r, out);
      trailers := [];
      assert t == [CR, LF];
    } else {
      assert next == stored.(line := []);
      var more := TrailersFed(next, r, out);
      trailers := [l] + more;
      assert trailers[1..] == more;
    }
  }

  lemma DoneTakesNothing(s: State, t: seq<byte>, out: seq<byte>)
    requires s.Shape() && s.done && Completes(s, t, out)
    ensures t == [] && FeedAll(s, t, out) == Some((s, out))
  {
  }

  lemma SizeLineFed(s: State, l: seq<byte>) returns (n: u32)
    requires AtLine(s) && s.phase == 0 && Line(l) && s.line == l + [CR, LF] && EndLine(s).1
    ensures SizeLine(l) && n == SizeOf(l) <= s.limit - s.received
    ensures EndLine(s).0 == s.(left := n, phase := if n > 0 then 1 else 4,
                               trailer := if n > 0 then 0 else s.trailer, line := [])
  {
    assert s.line[..|s.line| - 2] == l;
    SizeLoopExact(0, CStr(l), s.limit - s.received);
    n := SizeOf(l);
  }

  lemma {:induction false} BodyFed(s: State, t: seq<byte>, out: seq<byte>) returns (body: Encoded)
    requires Fresh(s) && Completes(s, t, out)
    ensures body.Ok(s.limit) && s.received + |DataOf(body.chunks)| <= s.limit
    ensures t == body.Text() && FeedAll(s, t, out).value.1 == out + DataOf(body.chunks)
    decreases |t|
  {
    hide Feed, EndLine, CStr, Hex, AllHex, HexDigit;
    var l, r := WholeLineFed(s, t, out);
    var stored := s.(line := l + [CR, LF], trailer := |l| + 2);
    var n := SizeLineFed(stored, l);
    if n == 0 {
      var trailers := TrailersFed(stored.(left := 0, phase := 4, line := []), r, out);
      body := Encoded([], l, trailers);
      assert out + [] == out;
    } else {
      var inData := stored.(left := n, phase := 1, trailer := 0, line := []);
      var d, afterData := DataFed(inData, r, out);
      var broken := inData.(left := 0, received := s.received + |d|, phase := 2);
      var rest := BreakFed(broken, afterData, out + d);
      var more := BodyFed(broken.(phase := 0), rest, out + d);
      var c := Chunk(l, d);
      body := Encoded([c] + more.chunks, more.last, more.trailers);
      assert body.chunks[1..] == more.chunks;
      assert out + d + DataOf(more.chunks) == out + DataOf(body.chunks);
    }
  }

  /** The decoder completes exactly on encodings, and yields exactly their data in order. */
  lemma DecodesExactlyEncodings(limit: u32, text: seq<byte>, data: seq<byte>)
    ensures Decodes(limit, text, data) <==>
            exists body: Encoded :: body.Ok(limit) && body.Text() == text && DataOf(body.chunks) == data
  {
    if Decodes(limit, text, data) {
      var body := BodyFed(ChunkedStart(limit), text, []);
      assert [] + DataOf(body.chunks) == DataOf(body.chunks);
    }
    if exists body: Encoded :: body.Ok(limit) && body.Text() == text && DataOf(body.chunks) == data {
      var body: Encoded :| body.Ok(limit) && body.Text() == text && DataOf(body.chunks) == data;
      DecodesEncoding(limit, body);
    }
  }

  /** Completion comes with the last byte and not before. */
  lemma {:induction false} CompletesOnLastByte(s: State, text: seq<byte>, out: seq<byte>, n: nat)
    requires s.Shape() && Completes(s, text, out) && n < |text|
    ensures var r := FeedAll(s, text[..n], out);
            r.Some? && !r.value.0.done
    decreases |text|
  {
    assert !s.done;
    Step(s, text, out);
    if n > 0 {
      assert text[..n][1..] == text[1..][..n - 1];
      CompletesOnLastByte(Feed(s, text[0]).0, text[1..], if Feed(s, text[0]).2 then out + [text[0]] else out, n - 1);
    }
  }

  // ---- Where the decoder is laxer than RFC 9112 ----------------------------------------------

  lemma SameLine(a: seq<byte>, ra: seq<byte>, b: seq<byte>, rb: seq<byte>)
    requires LF !in a && LF !in b && a + ([CR, LF] + ra) == b + ([CR, LF] + rb)
    ensures a == b && ra == rb
  {
    var t := a + ([CR, LF] + ra);
    assert t[|a| + 1] == LF && t[|b| + 1] == LF;
    assert forall i | 0 <= i < |a| :: t[i] == a[i] && a[i] in a;
    assert forall i | 0 <= i < |b| :: t[i] == b[i] && b[i] in b;
    assert forall i | 0 <= i <= |a| :: t[i] != LF;
    assert forall i | 0 <= i <= |b| :: t[i] != LF;
    assert |a| == |b|;
    assert a == t[..|a|] == b;
    assert ra == t[|a| + 2..] == rb;
  }

  /** Trailers are read back from their text. */
  lemma {:induction false} TrailersUnique(a: seq<seq<byte>>, b: seq<seq<byte>>)
    requires forall i | 0 <= i < |a| :: LF !in a[i] && |a[i]| > 0
    requires forall i | 0 <= i < |b| :: LF !in b[i] && |b[i]| > 0
    requires Trailers(a) == Trailers(b)
    ensures a == b
    decreases |a|
  {
    var la: seq<byte> := if |a| == 0 then [] else a[0];
    var lb: seq<byte> := if |b| == 0 then [] else b[0];
    var ra: seq<byte> := if |a| == 0 then [] else Trailers(a[1..]);
    var rb: seq<byte> := if |b| == 0 then [] else Trailers(b[1..]);
    assert Trailers(a) == la + ([CR, LF] + ra) && Trailers(b) == lb + ([CR, LF] + rb);
    SameLine(la, ra, lb, rb);
    if |a| > 0 {
      TrailersUnique(a[1..], b[1..]);
      assert a == [a[0]] + a[1..] && b == [b[0]] + b[1..];
    }
  }

  /** A text is an encoding in at most one way. */
  lemma {:induction false} EncodingUnique(a: Encoded, b: Encoded, limit: u32)
    requires a.Ok(limit) && b.Ok(limit) && a.Text() == b.Text()
    ensures a == b
    decreases |a.chunks|
  {
    hide CStr, Hex, AllHex, HexDigit;
    var la := if |a.chunks| == 0 then a.last else a.chunks[0].size;
    var lb := if |b.chunks| == 0 then b.last else b.chunks[0].size;
    var ra := if |a.chunks| == 0 then Trailers(a.trailers)
              else a.chunks[0].data + ([CR, LF] + a.(chunks := a.chunks[1..]).Text());
    var rb := if |b.chunks| == 0 then Trailers(b.trailers)
              else b.chunks[0].data + ([CR, LF] + b.(chunks := b.chunks[1..]).Text());
    SameLine(la, ra, lb, rb);
    if |a.chunks| > 0 {
      var ta, tb := a.(chunks := a.chunks[1..]), b.(chunks := b.chunks[1..]);
      SameData(a.chunks[0].data, ta.Text(), b.chunks[0].data, tb.Text());
      EncodingUnique(ta, tb, limit);
      assert a.chunks == [a.chunks[0]] + ta.chunks && b.chunks == [b.chunks[0]] + tb.chunks;
    } else {
      TrailersUnique(a.trailers, b.trailers);
    }
  }

  lemma SameData(a: seq<byte>, ra: seq<byte>, b: seq<byte>, rb: seq<byte>)
    requires |a| == |b| && a + ([CR, LF] + ra) == b + ([CR, LF] + rb)
    ensures a == b && ra == rb
  {
    var t := a + ([CR, LF] + ra);
    assert a == t[..|a|] == b;
    assert ra == t[|a| + 2..] == rb;
  }

  /** chunked-body of section 7.1 of RFC 9112, without extensions and within the decoder's limits: sizes are
      hexadecimal digits and nothing else, and trailers are field lines. */
  ghost predicate Rfc9112(limit: u32, text: seq<byte>) {
    exists body: Encoded ::
      body.Ok(limit) && AllHex(body.last) && (forall i | 0 <= i < |body.chunks| :: AllHex(body.chunks[i].size)) &&
      body.Fields() && body.Text() == text
  }

  /** A size line without NUL is all digits. */
  lemma PlainIsDigits(l: seq<byte>)
    requires SizeLine(l)
    ensures AllHex(l) <==> 0 !in l
  {
    if 0 !in l {
      CStrUnique(l, l);
    }
    if AllHex(l) {
      forall i | 0 <= i < |l| ensures l[i] != 0 { assert HexDigit(l[i]).Some?; }
    }
  }

  /** An accepted body is a chunked body of RFC 9112 exactly when no size line contains a NUL and every trailer line
      is a field line. */
  lemma AcceptedIsRfcExactly(limit: u32, body: Encoded)
    requires body.Ok(limit)
    ensures Rfc9112(limit, body.Text()) <==> body.Plain() && body.Fields()
  {
    hide AllHex, CStr, Hex, FieldLine;
    PlainIsDigits(body.last);
    forall i | 0 <= i < |body.chunks| ensures AllHex(body.chunks[i].size) <==> 0 !in body.chunks[i].size {
      assert body.chunks[i].Ok();
      PlainIsDigits(body.chunks[i].size);
    }
    if Rfc9112(limit, body.Text()) {
      var strict: Encoded :| strict.Ok(limit) && AllHex(strict.last) &&
        (forall i | 0 <= i < |strict.chunks| :: AllHex(strict.chunks[i].size)) &&
        strict.Fields() && strict.Text() == body.Text();
      EncodingUnique(body, strict, limit);
    }
  }

  /** Any text the decoder completes on, then: its reading decides. */
  lemma DecodedIsRfcExactly(limit: u32, text: seq<byte>, data: seq<byte>) returns (body: Encoded)
    requires Decodes(limit, text, data)
    ensures body.Ok(limit) && body.Text() == text && DataOf(body.chunks) == data
    ensures Rfc9112(limit, text) <==> body.Plain() && body.Fields()
  {
    hide Rfc9112, Decodes;
    DecodesExactlyEncodings(limit, text, data);
    body :| body.Ok(limit) && body.Text() == text && DataOf(body.chunks) == data;
    AcceptedIsRfcExactly(limit, body);
  }

  /** A size line "0<NUL>" ends a body although RFC 9112 has no such line. */
  lemma NulSizeLineAccepted()
    ensures exists text: seq<byte> :: Decodes(0, text, []) && !Rfc9112(0, text)
  {
    var last: seq<byte> := [0x30, 0];
    var body := Encoded([], last, []);
    assert last[1..] == [0];
    assert CStr(last) == [0x30];
    assert Hex(0, CStr(last)) == 0 by { assert CStr(last)[1..] == []; }
    assert body.Ok(0);
    DecodesEncoding(0, body);
    assert 0 in body.last;
    AcceptedIsRfcExactly(0, body);
    assert DataOf(body.chunks) == [];
  }

  /** A trailer line "x" without a colon is accepted although RFC 9112 has no such line, and no NUL is involved. */
  lemma ColonlessTrailerAccepted()
    ensures exists text: seq<byte> :: Decodes(0, text, []) && 0 !in text && !Rfc9112(0, text)
  {
    hide Decodes, Rfc9112;
    var last: seq<byte> := [0x30];
    var line: seq<byte> := [0x78];
    var body := Encoded([], last, [line]);
    CStrUnique(last, last);
    assert Hex(0, CStr(last)) == 0 by { assert CStr(last)[1..] == []; }
    assert Trailers([line]) == [0x78, CR, LF, CR, LF] by {
      assert [line][1..] == [];
    }
    assert body.Ok(0);
    DecodesEncoding(0, body);
    assert body.Text() == [0x30, CR, LF, 0x78, CR, LF, CR, LF];
    assert !FieldLine(line);
    assert !body.Fields() by { assert body.trailers[0] == line; }
    AcceptedIsRfcExactly(0, body);
    assert DataOf(body.chunks) == [];
  }

  // ---- Bodies with a length --------------------------------------------------------------------

  /** A body with a length takes exactly that many bytes, all of them payload. */
  lemma {:induction false} LengthBodyTakesItsBytes(s: State, text: seq<byte>, out: seq<byte>)
    requires s.Shape() && s.valid && !s.chunked && !s.done && s.left > 0 && s.received + s.left <= s.limit
    ensures var r := FeedAll(s, text, out);
            (r.Some? <==> |text| <= s.left) &&
            (r.Some? ==> r.value.1 == out + text && (r.value.0.done <==> |text| == s.left))
    decreases |text|
  {
    if |text| == 0 {
      assert out + text == out;
    } else {
      var next := s.(left := s.left - 1, received := s.received + 1);
      assert out + [text[0]] + text[1..] == out + text;
      if next.left > 0 {
        assert Feed(s, text[0]) == (next, true, true);
        LengthBodyTakesItsBytes(next, text[1..], out + [text[0]]);
      } else {
        assert Feed(s, text[0]) == (next.(done := true), true, true);
        if |text| == 1 { assert text[1..] == []; }
      }
    }
  }
}
