/** What a release download delivers: when the bytes that arrived can still become the package, and the messages a
    package is sent in. */
module Delivery {
  import opened Bytes
  import opened OtaSpec
  import opened Protocol
  import opened ProtocolSafety
  import Chunked
  import ChunkedText

  /** The response is complete: its body has ended and is size bytes long. */
  predicate Whole(head: Chunked.Head, size: u32, text: seq<byte>) {
    var r := Chunked.FeedAll(Chunked.Start(head, size), text, []);
    r.Some? && r.value.0.done && |r.value.1| == size
  }

  /** Nothing that may still follow makes these bytes a complete response. */
  ghost predicate Hopeless(head: Chunked.Head, size: u32, delivered: seq<byte>) {
    forall text: seq<byte> | delivered <= text :: !Whole(head, size, text)
  }

  lemma {:induction false} FeedAllSplits(s: Chunked.State, a: seq<byte>, b: seq<byte>, out: seq<byte>)
    requires s.Shape()
    ensures var r := Chunked.FeedAll(s, a, out);
            (r.Some? ==>
               r.value.0.Shape() &&
               Chunked.FeedAll(s, a + b, out) == Chunked.FeedAll(r.value.0, b, r.value.1)) &&
            (r.None? ==> Chunked.FeedAll(s, a + b, out).None?)
    decreases |a|
  {
    hide Chunked.Feed;
    if |a| == 0 {
      assert a + b == b;
    } else {
      assert (a + b)[1..] == a[1..] + b && (a + b)[0] == a[0];
      var (next, ok, payload) := Chunked.Feed(s, a[0]);
      if ok { FeedAllSplits(next, a[1..], b, if payload then out + [a[0]] else out); }
    }
  }

  lemma {:induction false} PayloadGrows(s: Chunked.State, text: seq<byte>, out: seq<byte>)
    requires s.Shape() && Chunked.FeedAll(s, text, out).Some?
    ensures |out| <= |Chunked.FeedAll(s, text, out).value.1|
    ensures s.done ==> text == []
    decreases |text|
  {
    hide Chunked.Feed;
    if |text| > 0 {
      var (next, ok, payload) := Chunked.Feed(s, text[0]);
      if s.done { DoneRefuses(s, text[0]); }
      PayloadGrows(next, text[1..], if payload then out + [text[0]] else out);
    }
  }

  lemma DoneRefuses(s: Chunked.State, b: byte)
    requires s.Shape() && s.done
    ensures !Chunked.Feed(s, b).1
  {
  }

  /** A byte the decoder refuses ends every hope, and so does a body that ends short. */
  lemma RefusedIsHopeless(j: Job, b: byte)
    requires JobInv(j) && !Chunked.Feed(j.body, b).1
    ensures Hopeless(j.head, j.size, j.raw + [b])
  {
    hide Chunked.Feed, Chunked.Start;
    var start := Chunked.Start(j.head, j.size);
    forall text: seq<byte> | j.raw + [b] <= text ensures !Whole(j.head, j.size, text) {
      var rest := text[|j.raw|..];
      assert text == j.raw + rest && rest[0] == b;
      FeedAllSplits(start, j.raw, rest, []);
    }
  }

  lemma ShortIsHopeless(j: Job)
    requires JobInv(j) && j.body.done && |j.payload| != j.size
    ensures Hopeless(j.head, j.size, j.raw)
  {
    hide Chunked.Feed, Chunked.Start, Chunked.FeedAll;
    var start := Chunked.Start(j.head, j.size);
    forall text: seq<byte> | j.raw <= text ensures !Whole(j.head, j.size, text) {
      var rest := text[|j.raw|..];
      assert text == j.raw + rest;
      FeedAllSplits(start, j.raw, rest, []);
      if Chunked.FeedAll(start, text, []).Some? {
        PayloadGrows(j.body, rest, j.payload);
        assert text == j.raw;
      }
    }
  }

  /** When the whole payload is there, only framing may follow. */
  lemma FullRefusesPayload(j: Job, b: byte)
    requires JobInv(j) && |j.payload| == j.size
    ensures !Chunked.Feed(j.body, b).2
  {
    Chunked.FeedAllKeepsBounds(Chunked.Start(j.head, j.size), j.raw, []);
  }

  /** Complete responses are the announced bytes themselves, or one chunked encoding of as many. */
  lemma WholeExactly(head: Chunked.Head, size: u32, text: seq<byte>)
    requires Announces(head, size) && size > 0
    ensures Whole(head, size, text) <==>
            if head.hasLength then |text| == size
            else exists body: ChunkedText.Encoded ::
                   body.Ok(size) && body.Text() == text && |ChunkedText.DataOf(body.chunks)| == size
  {
    hide Chunked.Feed, Chunked.FeedAll, ChunkedText.DataOf;
    if head.hasLength {
      ChunkedText.LengthBodyTakesItsBytes(Chunked.Start(head, size), text, []);
      assert [] + text == text;
    } else {
      var r := Chunked.FeedAll(Chunked.Start(head, size), text, []);
      if r.Some? { ChunkedText.DecodesExactlyEncodings(size, text, r.value.1); }
      if body: ChunkedText.Encoded :|
          body.Ok(size) && body.Text() == text && |ChunkedText.DataOf(body.chunks)| == size {
        ChunkedText.DecodesExactlyEncodings(size, text, ChunkedText.DataOf(body.chunks));
      }
    }
  }

  // ---- Messages ------------------------------------------------------------------------------------------------

  /** A package in messages: its first 192 bytes, then pieces of 1024 and what is left. */
  function Slices(payload: seq<byte>): seq<seq<byte>> {
    if |payload| < 192 then [] else [payload[..192]] + Pieces(payload[192..])
  }

  function Pieces(image: seq<byte>): seq<seq<byte>> {
    if |image| == 0 then [] else if |image| <= 1024 then [image] else [image[..1024]] + Pieces(image[1024..])
  }

  lemma {:induction false} PiecesGrow(image: seq<byte>, piece: seq<byte>)
    requires |image| % 1024 == 0 && 0 < |piece| <= 1024
    ensures Pieces(image + piece) == Pieces(image) + [piece]
    decreases |image|
  {
    if |image| == 0 {
      assert image + piece == piece;
    } else {
      var all := image + piece;
      assert |image| >= 1024 && all[..1024] == image[..1024] && all[1024..] == image[1024..] + piece;
      PiecesGrow(image[1024..], piece);
      if |image| == 1024 { assert image[1024..] == [] && image[..1024] == image; }
    }
  }

  lemma SlicesGrow(payload: seq<byte>, piece: seq<byte>)
    requires if |payload| == 0 then |piece| == 192
             else |payload| >= 192 && (|payload| - 192) % 1024 == 0 && 0 < |piece| <= 1024
    ensures Slices(payload + piece) == Slices(payload) + [piece]
  {
    var all := payload + piece;
    if |payload| == 0 {
      assert all == piece && all[..192] == piece && all[192..] == [];
    } else {
      assert all[..192] == payload[..192] && all[192..] == payload[192..] + piece;
      PiecesGrow(payload[192..], piece);
    }
  }

  /** The messages of a payload, numbered from the first one on. */
  function MessageAt(version: u32, size: u32, first: nat, i: nat, bytes: seq<byte>): Message {
    if i == 0 then Header(Wire(first), version, size, bytes) else Image(Wire(first + i), bytes)
  }

  predicate SentAs(posted: seq<Message>, version: u32, size: u32, first: nat, payload: seq<byte>) {
    |posted| == |Slices(payload)| &&
    forall i | 0 <= i < |posted| :: posted[i] == MessageAt(version, size, first, i, Slices(payload)[i])
  }
}
