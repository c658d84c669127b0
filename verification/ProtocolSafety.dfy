/** The two tasks together behave as one sequential writer, for every interleaving. */
module ProtocolSafety {
  import opened Bytes
  import opened Clock
  import opened Manifest
  import opened Hardware
  import opened OtaSpec
  import opened OtaRuns
  import opened Protocol
  import OtaSafety
  import Chunked
  import ChunkedText

  // ---- What operations do to a transfer ------------------------------------------------------------------

  predicate Own(s: Device) {
    s.u.origin == GithubPull
  }

  function Slot(s: Device): seq<byte>
    requires Shaped(s)
  {
    s.d.slots[OtaSpec.Other(s.running)]
  }

  /** No transfer of ours begins, grows or completes. */
  predicate Untouched(s: Device, r: Device)
    requires Shaped(s)
  {
    && Shaped(r) && r.running == s.running
    && (Own(r) && r.u.phase == Receiving ==>
          Own(s) && s.u.phase == Receiving && r.u.received == s.u.received && r.u.manifest == s.u.manifest &&
              Slot(r) == Slot(s))
    && (Own(r) && r.u.phase == RebootPending ==> Own(s) && s.u.phase == RebootPending && Slot(r) == Slot(s))
    && (Own(r) && r.u.phase == Prepared ==> Own(s) && s.u.phase == Prepared)
  }

  lemma TickLeaves(s: Device, now: u32)
    requires Shaped(s)
    ensures Untouched(s, Ticked(s, now)) && (Ticked(s, now).u.phase == Receiving ==> s.u.phase == Receiving)
  {
  }

  lemma PrepareLeaves(k: Kit, s: Device, bytes: seq<byte>, token: seq<byte>, origin: Origin, now: u32, fault: bool)
    requires Shaped(s)
    ensures var r := PrepareRun(k, s, bytes, token, origin, now, fault);
            (origin != GithubPull || !PrepareAccepts(k, s, bytes, token, origin, now, fault) ==> Untouched(s, r)) &&
            (r.u.phase == Receiving ==> s.u.phase == Receiving && r.u.origin == s.u.origin) && r.d == s.d &&
                r.rt == s.rt && r.begun == s.begun && r.running == s.running &&
            (PrepareAccepts(k, s, bytes, token, origin, now, fault) ==>
               ValidToken(token) && r.u.phase == Prepared && r.u.received == 0 && r.u.origin == origin &&
                   r.u.token == token && r.u.started == now &&
               r.u.manifest == Examine(k, Id(k, s).version, bytes, origin).1)
  {
    hide Examine, Available, Noted, OtaSpec.Prepare;
    TickLeaves(s, now);
    var t := Ticked(s, now);
    var (reason, m) := Examine(k, Id(k, s).version, bytes, origin);
    OtaSafety.PrepareOutcome(t.u, k, Id(k, s).version, bytes, token, origin, now, Available(t.d.nvs, m, fault));
    OtaSafety.PrepareOutcome(t.u, k, Id(k, s).version, bytes, token, origin, now, false);
    PrepareAgrees(k, s, bytes, token, origin, now, fault);
  }

  /** Asking the writer only when the checks passed does not change the answer. */
  lemma PrepareAgrees(k: Kit, s: Device, bytes: seq<byte>, token: seq<byte>, origin: Origin, now: u32, fault: bool)
    requires Shaped(s)
    ensures var t := Ticked(s, now);
            var m := Examine(k, Id(k, s).version, bytes, origin).1;
            PrepareRun(k, s, bytes, token, origin, now, fault).u ==
              OtaSpec.Prepare(t.u, k, Id(k, s).version, bytes, token, origin, now, Available(t.d.nvs, m, fault)).0
  {
    hide Examine, Available, Noted, Ticked, UsableKey, ValidToken;
    TickFailsOnly(s, now);
  }

  lemma StartLeaves(k: Kit, s: Device, token: seq<byte>, size: nat, now: u32, env: StartEnv)
    requires Shaped(s)
    ensures var r := StartRun(k, s, token, size, now, env).0;
            Shaped(r) && r.running == s.running && r.u.origin == s.u.origin &&
            (r.u.phase == Prepared ==> s.u.phase == Prepared) &&
            (r.u.phase == RebootPending ==> s.u.phase == RebootPending && Slot(r) == Slot(s)) &&
            (r.u.phase == Receiving ==>
               (s.u.phase == Receiving && r.u.received == s.u.received && r.u.manifest == s.u.manifest &&
                   Slot(r) == Slot(s)) ||
               (s.u.phase == Prepared && r.u.received == s.u.received && r.u.manifest == s.u.manifest && Slot(r) == []))
  {
    hide EncodeContext, ReadContext, Elapsed;
    TickLeaves(s, now);
  }

  lemma ChunkLeaves(k: Kit, s: Device, bytes: seq<byte>, now: u32, env: ChunkEnv)
    requires Proper(s)
    ensures var r := ChunkRun(k, s, bytes, now, env).0;
            Shaped(r) && r.running == s.running && r.u.origin == s.u.origin &&
            (r.u.phase == Prepared ==> s.u.phase == Prepared) &&
            (r.u.phase == Receiving ==>
               s.u.phase == Receiving && r.u.received == s.u.received + |bytes| && r.u.manifest == s.u.manifest &&
               Slot(r) == Slot(s) + bytes) &&
            (r.u.phase == RebootPending ==>
               (s.u.phase == RebootPending && Slot(r) == Slot(s)) ||
               (s.u.phase == Receiving && s.u.received + |bytes| == s.u.manifest.imageSize &&
                   Slot(r) == Slot(s) + bytes))
  {
    hide CompleteRun, ValidToken, Ticked;
    TickFailsOnly(s, now);
    var t := Ticked(s, now);
    if t.u.phase == Receiving && ChunkFits(t.u, |bytes|) {
      var (w, d, wrote) := Write(t.w, t.d, s.running, bytes, env);
      var next := t.(u := Progressed(t.u, |bytes|, now), w := w, d := d);
      if wrote && next.u.received == next.u.manifest.imageSize { CompleteLeaves(k, next, env); }
    }
  }

  lemma TickFailsOnly(s: Device, now: u32)
    ensures Ticked(s, now) == s || Ticked(s, now).u.phase == Failed
    ensures Ticked(s, now).u.origin == s.u.origin && Ticked(s, now).d == s.d && Ticked(s, now).running == s.running
  {
  }

  lemma CompleteLeaves(k: Kit, s: Device, env: ChunkEnv)
    requires Shaped(s) && ValidToken(s.u.token)
    ensures var r := CompleteRun(k, s, env).0;
            Shaped(r) && r.running == s.running && r.u.origin == s.u.origin && Slot(r) == Slot(s) &&
            (r.u.phase == RebootPending || r.u.phase == Failed)
  {
    hide EncodeJournal, MaySelect, ValidToken;
  }

  // ---- The queues --------------------------------------------------------------------------------------

  predicate AtMost(s: State, n: nat) {
    |s.messages| <= n && forall i | 0 <= i < |s.messages| :: !s.messages[i].Done?
  }

  /** What the queues hold, by what the worker is doing. */
  predicate QueueInv(s: State) {
    && s.requests <= 1 && |s.acks| <= 1
    && (!s.busy ==> s.pc == Sleeping && s.requests == 0 && s.messages == [])
    && (s.requests > 0 ==> s.pc == Sleeping && s.messages == [])
    && match s.pc
       case Checking => s.messages == []
       case Fetching => s.messages == []
       case Awaiting => AtMost(s, 1)
       case Finishing => AtMost(s, 1)
       case Sleeping =>
         s.busy && s.requests == 0 ==>
           1 <= |s.messages| <= 2 && s.messages[|s.messages| - 1].Done? && (|s.messages| == 2 ==> !s.messages[0].Done?)
  }

  /** The exchange that the loop has not seen yet. */
  predicate Pending(s: State) {
    |s.messages| > 0 && !s.messages[0].Done?
  }

  // ---- The stream --------------------------------------------------------------------------------------

  predicate JobInv(j: Job) {
    && Announces(j.head, j.size) && j.body.Bounded() && j.body.limit == j.size
    && Chunked.FeedAll(Chunked.Start(j.head, j.size), j.raw, []) == Some((j.body, j.payload))
    && j.acked <= j.posted <= |j.payload| <= j.size
    && (j.acked == 0 || HEADER_BYTES <= j.acked)
    && (j.posted == j.acked || j.posted == |j.payload|)
    && (j.acked == 0 < j.posted ==> j.posted == HEADER_BYTES)
    && (HEADER_BYTES < j.posted == j.size ==> j.body.done && |j.payload| == j.size)
  }

  predicate WorkerInv(s: State) {
    && (s.job.Some? ==> JobInv(s.job.value))
    && (s.pc == Fetching ==>
          s.job.Some? && s.job.value.posted == s.job.value.acked && (s.job.value.acked == 0 ||
              s.job.value.acked < s.job.value.size))
    && (s.pc == Awaiting ==> s.job.Some? && s.job.value.acked < s.job.value.posted)
    && (Pending(s) ==>
          s.job.Some? && s.job.value.acked < s.job.value.posted == |s.job.value.payload| &&
          s.messages[0] == Outgoing(s.job.value, Wire(s.exchanges)) && (|s.acks| > 0 ==>
              s.acks[0].sequence != Wire(s.exchanges)))
    && (|s.acks| > 0 && s.exchanges < 0x1_0000_0000 ==> s.acks[0].sequence <= s.exchanges)
  }

  /** Bytes of the package that the transfer in hand has taken in. */
  function Position(s: Device): nat {
    HEADER_BYTES + s.u.received
  }

  predicate TransferInv(s: State)
    requires Shaped(s.dev)
  {
    Own(s.dev) && s.dev.u.phase == Receiving ==>
      && s.busy && s.requests == 0 && s.pc != Checking && s.job.Some?
      && var j := s.job.value;
         && Position(s.dev) <= |j.payload| && Slot(s.dev) == j.payload[HEADER_BYTES..Position(s.dev)]
         && s.dev.u.manifest.imageSize + HEADER_BYTES == j.size
         && (s.pc == Fetching || Pending(s) ==> Position(s.dev) == j.acked)
         && (Position(s.dev) == j.acked || Position(s.dev) == j.posted)
         && (s.pc == Awaiting && |s.acks| > 0 && s.acks[0] == Ack(Wire(s.exchanges), true) ==>
             Position(s.dev) == j.posted)
  }

  predicate SelectedInv(s: State)
    requires Shaped(s.dev)
  {
    Own(s.dev) && s.dev.u.phase == RebootPending ==>
      && s.requests == 0 && s.pc != Checking && s.pc != Fetching && s.job.Some?
      && var j := s.job.value;
         j.body.done && HEADER_BYTES <= |j.payload| == j.size == j.posted && Slot(s.dev) == j.payload[HEADER_BYTES..]
  }

  predicate LoopInv(s: State) {
    && !(Own(s.dev) && s.dev.u.phase == Prepared)
    && (s.reboot ==> Own(s.dev) && s.dev.u.phase == RebootPending)
    && (s.busy ==> s.dev.begun)
    && (s.busy && s.dev.u.phase == Receiving ==> Own(s.dev))
    && (s.pc != Sleeping || Pending(s) || s.requests > 0 ==> s.busy)
  }

  /** All but the device's own invariant. */
  predicate Linked(s: State) {
    Shaped(s.dev) && QueueInv(s) && WorkerInv(s) && TransferInv(s) && SelectedInv(s) && LoopInv(s)
  }

  ghost predicate Inv(k: Kit, s: State) {
    OtaRuns.Inv(k, s.dev) && Linked(s)
  }

  // ---- The worker's steps --------------------------------------------------------------------------------

  lemma OpenKeeps(k: Kit, s: State, version: u32, size: u32, head: Chunked.Head)
    requires Linked(s) && Sound(s) && Protocol.Enabled(k, s, OpenBody(version, size, head))
    ensures Linked(Protocol.Next(k, s, OpenBody(version, size, head)))
  {
  }

  /** One more byte for the decoder extends what it has read and marked. */
  lemma {:induction false} FeedAllExtends(s: Chunked.State, input: seq<byte>, out: seq<byte>, b: byte)
    requires s.Shape() && Chunked.FeedAll(s, input, out).Some? && Chunked.FeedAll(s, input, out).value.0.Shape()
    ensures var (n, o) := Chunked.FeedAll(s, input, out).value; var (next, ok, payload) := Chunked.Feed(n, b);
            Chunked.FeedAll(s, input + [b], out) == if ok then Some((next, if payload then o + [b] else o)) else None
    decreases |input|
  {
    hide Chunked.Feed;
    if |input| == 0 {
      assert (input + [b])[1..] == [];
    } else {
      var (next, ok, payload) := Chunked.Feed(s, input[0]);
      FeedAllExtends(next, input[1..], if payload then out + [input[0]] else out, b);
      assert (input + [b])[1..] == input[1..] + [b];
    }
  }

  lemma JobReads(j: Job, b: byte)
    requires JobInv(j) && MayRead(j) && j.posted == j.acked
    ensures var (body, ok, payload) := Chunked.Feed(j.body, b);
            ok ==> JobInv(j.(raw := j.raw + [b], body := body,
                payload := if payload then j.payload + [b] else j.payload))
  {
    hide Chunked.Feed, Chunked.FeedAll, Wanted;
    var start := Chunked.Start(j.head, j.size);
    FeedAllExtends(start, j.raw, [], b);
    Chunked.FeedKeepsBounds(j.body, b);
    var (body, ok, payload) := Chunked.Feed(j.body, b);
    if ok { Chunked.FeedAllKeepsBounds(start, j.raw + [b], []); }
  }

  lemma ReadKeeps(s: State, b: byte)
    requires Linked(s) && s.pc == Fetching && MayRead(s.job.value)
    ensures Linked(Read(s, b))
  {
    hide JobInv, Wanted, Chunked.Feed, MayRead;
    JobReads(s.job.value, b);
    JobBounds(s.job.value);
  }

  lemma JobBounds(j: Job)
    requires JobInv(j)
    ensures j.acked <= j.posted <= |j.payload| <= j.size
  {
  }

  lemma ExchangeKeeps(k: Kit, s: State, alive: bool)
    requires Linked(s) && Sound(s) && Protocol.Enabled(k, s, Exchange(alive))
    ensures Linked(Protocol.Next(k, s, Exchange(alive)))
  {
    hide Chunked.FeedAll, Chunked.Start;
  }

  lemma AckKeeps(s: State)
    requires Linked(s) && s.pc == Awaiting && |s.acks| > 0
    ensures Linked(ReadAck(s))
  {
    hide Chunked.FeedAll, Chunked.Start;
  }

  lemma GiveUpKeeps(s: State)
    requires Linked(s) && (s.pc == Checking || s.pc == Fetching || s.pc == Awaiting)
    ensures Linked(s.(pc := Finishing))
  {
    hide JobInv;
  }

  lemma DoneKeeps(s: State)
    requires Linked(s) && s.pc == Finishing
    ensures Linked(s.(pc := Sleeping, messages := s.messages + [Done]))
  {
    hide JobInv;
  }

  lemma RequestKeeps(s: State)
    requires Linked(s) && s.pc == Sleeping && s.requests > 0
    ensures Linked(s.(pc := Checking, requests := s.requests - 1))
  {
    hide JobInv;
  }

  lemma JobKeeps(k: Kit, s: State)
    requires Linked(s) && !s.busy && s.dev.begun && (s.dev.u.phase == Idle || s.dev.u.phase == Failed)
    ensures Linked(s.(requests := 1, busy := true))
  {
    hide JobInv;
  }

  /** RebootPending is left only by a reset. */
  predicate StaysSelected(s: Device, r: Device) {
    s.u.phase == RebootPending ==>
      r.u.phase == RebootPending && r.u.origin == s.u.origin && r.running == s.running && r.d.slots == s.d.slots
  }

  lemma TransfersStay(k: Kit, s: Device, op: Op)
    requires Proper(s) && (op.DoPrepare? || op.DoStart? || op.DoChunk?)
    ensures StaysSelected(s, Exec(k, s, op).0)
  {
    hide Authorize, OtaSpec.Begin, CompleteRun, Write, Examine, Available, Noted, UsableKey, ValidToken;
  }

  lemma OpStays(k: Kit, s: Device, op: Op)
    requires Proper(s)
    ensures StaysSelected(s, Exec(k, s, op).0)
  {
    hide PrepareRun, StartRun, ChunkRun, MayConfirm, BeginRuntime, Poll, ValidToken, StaysSelected;
    if op.DoPrepare? || op.DoStart? || op.DoChunk? { TransfersStay(k, s, op); } else { QuietStays(k, s, op); }
  }

  lemma QuietStays(k: Kit, s: Device, op: Op)
    requires Proper(s) && !op.DoPrepare? && !op.DoStart? && !op.DoChunk?
    ensures StaysSelected(s, Exec(k, s, op).0)
  {
    hide PrepareRun, StartRun, ChunkRun, MayConfirm, BeginRuntime, Poll, ValidToken;
  }

  /** begin is never undone within a boot. */
  lemma OpKeepsBegun(k: Kit, s: Device, op: Op)
    requires Proper(s)
    ensures s.begun ==> Exec(k, s, op).0.begun
  {
    hide OtaSpec.Prepare, Noted, Authorize, OtaSpec.Begin, Select, Journaled, Finish, Write, MayConfirm,
        BeginRuntime, Poll, ValidToken;
  }

  lemma HandleKeepsBegun(k: Kit, s: Device, m: Message, env: TakeEnv)
    requires Proper(s)
    ensures s.begun ==> Handle(k, s, m, env).0.begun
  {
    hide PrepareTicked, StartRun, ChunkRun, CanUpdate, DecodePackage, ValidToken, AcceptsTicked;
    if m.Header? {
      OpKeepsBegun(k, s, DoPrepare(m.bytes, env.token, GithubPull, env.now, env.fault));
      var prepared := PrepareRun(k, s, m.bytes, env.token, GithubPull, env.now, env.fault);
      PrepareLeaves(k, s, m.bytes, env.token, GithubPull, env.now, env.fault);
      if |m.bytes| == HEADER_BYTES && DecodePackage(m.bytes[..PACKAGE_MANIFEST_BYTES]).Some? &&
         PrepareAccepts(k, s, m.bytes, env.token, GithubPull, env.now, env.fault) {
        OpKeepsBegun(k, prepared, DoStart(env.token,
            DecodePackage(m.bytes[..PACKAGE_MANIFEST_BYTES]).value.imageSize, env.now, env.start));
      }
    } else if m.Image? {
      OpKeepsBegun(k, s, DoChunk(m.bytes, env.now, env.chunk));
    }
  }

  lemma HandleStays(k: Kit, s: Device, m: Message, env: TakeEnv)
    requires Proper(s)
    ensures StaysSelected(s, Handle(k, s, m, env).0)
  {
    hide PrepareRun, StartRun, ChunkRun, CanUpdate, DecodePackage, ValidToken, Examine, UsableKey;
    if m.Header? {
      TransfersStay(k, s, DoPrepare(m.bytes, env.token, GithubPull, env.now, env.fault));
    } else if m.Image? {
      TransfersStay(k, s, DoChunk(m.bytes, env.now, env.chunk));
    }
  }

  // ---- The loop's steps ----------------------------------------------------------------------------------

  lemma TimeoutKeeps(s: State)
    requires Linked(s)
    ensures Linked(s.(dev := InterruptOwn(s.dev)))
  {
    hide JobInv;
  }

  lemma TakeDoneKeeps(k: Kit, s: State, env: TakeEnv)
    requires Linked(s) && Proper(s.dev) && s.busy && |s.messages| > 0 && s.messages[0].Done?
    ensures Linked(Take(k, s, env))
  {
    hide JobInv;
  }

  /** An operation of the loop that leaves our transfer alone keeps everything. */
  lemma UntouchedKeeps(s: State, r: Device)
    requires Linked(s) && Untouched(s.dev, r) && StaysSelected(s.dev, r) && (s.dev.begun ==> r.begun)
    requires s.busy && r.u.phase == Receiving ==> s.dev.u.phase == Receiving && r.u.origin == s.dev.u.origin
    ensures Linked(s.(dev := r))
  {
    hide JobInv;
  }

  lemma OpLeaves(k: Kit, s: Device, op: Op)
    requires Proper(s) && OtaRuns.Enabled(k, s, op) && !op.DoPrepare? && !op.DoStart? && !op.DoChunk?
    ensures var r := Exec(k, s, op).0;
            Untouched(s, r) && (r.u.phase == Receiving ==> s.u.phase == Receiving && r.u.origin == s.u.origin)
  {
    hide MayConfirm, BeginRuntime, Poll, SameRecords;
  }

  lemma LoopOpUntouched(k: Kit, s: State, op: Op)
    requires Linked(s) && Proper(s.dev) && OtaRuns.Enabled(k, s.dev, op) && LoopMay(s, op)
    ensures var r := Exec(k, s.dev, op).0;
            Untouched(s.dev, r) &&
            (s.busy && r.u.phase == Receiving ==> s.dev.u.phase == Receiving && r.u.origin == s.dev.u.origin)
  {
    hide Linked, PrepareRun, StartRun, ChunkRun, PollRun, ConfirmRun, BeginRun, PrepareAccepts, ValidToken, Examine;
    match op
    case DoPrepare(bytes, token, origin, now, fault) => PrepareLeaves(k, s.dev, bytes, token, origin, now, fault);
    case DoStart(token, size, now, env) => StartLeaves(k, s.dev, token, size, now, env); NotOurs(s);
    case DoChunk(bytes, now, env) => ChunkLeaves(k, s.dev, bytes, now, env); NotOurs(s);
    case _ => OpLeaves(k, s.dev, op);
  }

  lemma LoopOpKeeps(k: Kit, s: State, op: Op)
    requires Linked(s) && Proper(s.dev) && OtaRuns.Enabled(k, s.dev, op) && LoopMay(s, op)
    ensures Linked(s.(dev := Exec(k, s.dev, op).0))
  {
    hide Linked, Exec, ValidToken;
    LoopOpUntouched(k, s, op);
    OpStays(k, s.dev, op);
    OpKeepsBegun(k, s.dev, op);
    UntouchedKeeps(s, Exec(k, s.dev, op).0);
  }

  /** Without a job there is no transfer of ours to disturb. */
  lemma NotOurs(s: State)
    requires Linked(s) && !s.busy
    ensures !(Own(s.dev) && s.dev.u.phase == Receiving) && !(Own(s.dev) && s.dev.u.phase == Prepared)
  {
  }

  // ---- A message taken -------------------------------------------------------------------------------------

  /** What handling may do to our transfer: leave it, open it empty for the announced size, or extend it. */
  predicate Handled(s: Device, m: Message, r: Device, accepted: bool)
    requires Shaped(s) && !m.Done?
  {
    && Shaped(r) && r.running == s.running
    && (Own(r) && r.u.phase == Prepared ==> Own(s) && s.u.phase == Prepared)
    && (r.u.phase == Receiving && !Own(r) ==> !Own(s) && s.u.phase == Receiving)
    && (Own(r) && r.u.phase == Receiving ==>
          || (!accepted && Own(s) && s.u.phase == Receiving && r.u.received == s.u.received &&
              r.u.manifest == s.u.manifest && Slot(r) == Slot(s))
          || (m.Header? && r.u.received == 0 && r.u.manifest.imageSize + HEADER_BYTES == m.size && Slot(r) == [])
          || (m.Image? && Own(s) && s.u.phase == Receiving && r.u.received == s.u.received + |m.bytes| &&
              r.u.manifest == s.u.manifest && Slot(r) == Slot(s) + m.bytes))
    && (Own(r) && r.u.phase == RebootPending ==>
          || (Own(s) && s.u.phase == RebootPending && Slot(r) == Slot(s))
          || (m.Image? && Own(s) && s.u.phase == Receiving && s.u.received + |m.bytes| == s.u.manifest.imageSize &&
              Slot(r) == Slot(s) + m.bytes))
  }

  lemma HeaderHandled(k: Kit, s: Device, m: Message, env: TakeEnv)
    requires Proper(s) && m.Header? && (s.u.phase == Receiving ==> Own(s)) && !(Own(s) && s.u.phase == Prepared)
    ensures var (r, accepted) := TakeHeader(k, s, m.version, m.size, m.bytes, env); Handled(s, m, r, accepted)
  {
    hide PrepareRun, StartRun, PrepareAccepts, Examine, DecodePackage, ValidToken;
    if |m.bytes| == HEADER_BYTES && DecodePackage(m.bytes[..PACKAGE_MANIFEST_BYTES]).Some? {
      var preview := DecodePackage(m.bytes[..PACKAGE_MANIFEST_BYTES]).value;
      PrepareLeaves(k, s, m.bytes, env.token, GithubPull, env.now, env.fault);
      if PrepareAccepts(k, s, m.bytes, env.token, GithubPull, env.now, env.fault) {
        var prepared := PrepareRun(k, s, m.bytes, env.token, GithubPull, env.now, env.fault);
        ExaminedIsPreview(k, Id(k, s).version, m.bytes);
        StartsAtOnce(k, prepared, env.token, preview.imageSize, env.now, env.start);
        StartLeaves(k, prepared, env.token, preview.imageSize, env.now, env.start);
      }
    }
  }

  /** A transaction prepared a moment ago starts or fails; it is not left open. */
  lemma StartsAtOnce(k: Kit, s: Device, token: seq<byte>, size: nat, now: u32, env: StartEnv)
    requires Shaped(s) && s.u.phase == Prepared && s.u.started == now && s.u.token == token && ValidToken(token)
    requires size == s.u.manifest.imageSize
    ensures StartRun(k, s, token, size, now, env).0.u.phase != Prepared
  {
    hide Authorize, OtaSpec.Begin, ValidToken;
  }

  /** The preview the loop looks at is the manifest prepare takes. */
  lemma ExaminedIsPreview(k: Kit, version: u32, bytes: seq<byte>)
    requires |bytes| == HEADER_BYTES && DecodePackage(bytes[..PACKAGE_MANIFEST_BYTES]).Some?
    ensures Examine(k, version, bytes, GithubPull).1 == DecodePackage(bytes[..PACKAGE_MANIFEST_BYTES]).value
  {
    hide DecodePackage, DecodeManifest, CStr;
  }

  lemma ImageHandled(k: Kit, s: Device, m: Message, env: TakeEnv)
    requires Proper(s) && m.Image? && (s.u.phase == Receiving ==> Own(s)) && !(Own(s) && s.u.phase == Prepared)
    ensures var (r, accepted) := TakeImage(k, s, m.bytes, env); Handled(s, m, r, accepted)
  {
    hide ChunkRun, ValidToken;
    ChunkLeaves(k, s, m.bytes, env.now, env.chunk);
  }

  lemma MessageHandled(k: Kit, s: Device, m: Message, env: TakeEnv)
    requires Proper(s) && !m.Done? && (s.u.phase == Receiving ==> Own(s)) && !(Own(s) && s.u.phase == Prepared)
    ensures var (r, accepted) := Handle(k, s, m, env); Handled(s, m, r, accepted)
  {
    hide TakeHeader, TakeImage, CanUpdate, ValidToken, Handled;
    if GatesOpen(k, s, env) {
      if m.Header? { HeaderHandled(k, s, m, env); } else { ImageHandled(k, s, m, env); }
    } else {
      assert Handled(s, m, s, false) by { UnhandledKeeps(s, m); }
    }
  }

  lemma UnhandledKeeps(s: Device, m: Message)
    requires Shaped(s) && !m.Done? && (s.u.phase == Receiving ==> Own(s)) && !(Own(s) && s.u.phase == Prepared)
    ensures Handled(s, m, s, false)
  {
  }

  lemma TakeKeeps(k: Kit, s: State, env: TakeEnv)
    requires Linked(s) && Proper(s.dev) && Pending(s)
    ensures Linked(Take(k, s, env))
  {
    hide JobInv, Handle, ValidToken;
    JobBounds(s.job.value);
    MessageHandled(k, s.dev, s.messages[0], env);
    HandleStays(k, s.dev, s.messages[0], env);
    HandleKeepsBegun(k, s.dev, s.messages[0], env);
    JobOfMessage(s);
  }

  /** The bytes of the outstanding message continue the stream where the transfer stands. */
  lemma JobOfMessage(s: State)
    requires Linked(s) && Pending(s)
    ensures var j, m := s.job.value, s.messages[0];
            (m.Header? ==> j.acked == 0 && j.posted == HEADER_BYTES && m.size == j.size) &&
            (m.Image? ==> HEADER_BYTES <= j.acked && m.bytes == j.payload[j.acked..] && (j.posted == j.size ==>
                j.body.done)) &&
            j.posted == |j.payload| && j.acked < j.posted
  {
    hide Chunked.FeedAll, Chunked.Start;
  }

  // ---- Every step, every run -----------------------------------------------------------------------------

  lemma InvIsSound(k: Kit, s: State)
    requires Inv(k, s)
    ensures Sound(s)
  {
    hide DurableInv, SignedManifest, Fenced, QueueInv, TransferInv, SelectedInv, Chunked.FeedAll;
  }

  lemma InterruptKeepsDevice(k: Kit, s: Device)
    requires OtaRuns.Inv(k, s)
    ensures OtaRuns.Inv(k, InterruptOwn(s))
  {
    hide DurableInv, SignedManifest, ReadContext, BootOrigin, ReadJournal;
  }

  lemma HandleKeepsDevice(k: Kit, s: Device, m: Message, env: TakeEnv)
    requires OtaRuns.Inv(k, s) && Proper(s) && env.Possible()
    ensures OtaRuns.Inv(k, Handle(k, s, m, env).0)
  {
    hide OtaRuns.Inv, PrepareRun, StartRun, ChunkRun, PrepareAccepts, CanUpdate, DecodePackage, ValidToken;
    if GatesOpen(k, s, env) {
      match m
      case Header(_, _, _, bytes) => HeaderKeepsDevice(k, s, m, env);
      case Image(_, bytes) => OtaSafety.ChunkKeeps(k, s, bytes, env.now, env.chunk);
      case Done =>
    }
  }

  lemma HeaderKeepsDevice(k: Kit, s: Device, m: Message, env: TakeEnv)
    requires OtaRuns.Inv(k, s) && Proper(s) && env.Possible() && m.Header? && GatesOpen(k, s, env)
    ensures OtaRuns.Inv(k, TakeHeader(k, s, m.version, m.size, m.bytes, env).0)
  {
    hide OtaRuns.Inv, PrepareRun, StartRun, PrepareAccepts, CanUpdate, DecodePackage, ValidToken;
    OtaSafety.PrepareKeeps(k, s, m.bytes, env.token, GithubPull, env.now, env.fault);
    PrepareLeaves(k, s, m.bytes, env.token, GithubPull, env.now, env.fault);
    var prepared := PrepareRun(k, s, m.bytes, env.token, GithubPull, env.now, env.fault);
    if |m.bytes| == HEADER_BYTES && DecodePackage(m.bytes[..PACKAGE_MANIFEST_BYTES]).Some? {
      var preview := DecodePackage(m.bytes[..PACKAGE_MANIFEST_BYTES]).value;
      OtaSafety.StartKeeps(k, prepared, env.token, preview.imageSize, env.now, env.start);
    }
  }

  lemma DeviceKeeps(k: Kit, s: State, step: Protocol.Step)
    requires Inv(k, s) && Sound(s) && Protocol.Enabled(k, s, step)
    ensures OtaRuns.Inv(k, Protocol.Next(k, s, step).dev)
  {
    hide OtaRuns.Inv, Linked, Exec, Handle, Chunked.Feed, Wanted, InterruptOwn, OtaRuns.Enabled, CanUpdate, Filled,
        ValidToken;
    InterruptKeepsDevice(k, s.dev);
    match step
    case TakeMessage(env) => HandleKeepsDevice(k, s.dev, s.messages[0], env);
    case Loop(op) => OtaSafety.ExecKeeps(k, s.dev, op); OpKept(k, s.dev, op);
    case _ =>
  }

  lemma OpKept(k: Kit, s: Device, op: Op)
    requires Proper(s) && OtaSafety.Kept(k, s, Exec(k, s, op))
    ensures OtaRuns.Inv(k, Exec(k, s, op).0)
  {
    hide OtaRuns.Inv, Exec, OtaSafety.GoodCut;
  }

  lemma LinksKeep(k: Kit, s: State, step: Protocol.Step)
    requires Inv(k, s) && Sound(s) && Protocol.Enabled(k, s, step)
    ensures Linked(Protocol.Next(k, s, step))
  {
    hide OtaRuns.Inv, Exec, Handle, InterruptOwn, OtaRuns.Enabled, CanUpdate, ValidToken, JobInv, TransferInv,
        SelectedInv, Chunked.Feed;
    match step
    case TakeRequest => RequestKeeps(s);
    case OpenBody(version, size, head) => OpenKeeps(k, s, version, size, head);
    case ReadByte(b) => ReadKeeps(s, b);
    case Exchange(alive) => ExchangeKeeps(k, s, alive);
    case ReceiveAck => AckKeeps(s);
    case GiveUp => GiveUpKeeps(s);
    case PostDone => DoneKeeps(s);
    case StartJob(_) => JobKeeps(k, s);
    case JobTimeout => TimeoutKeeps(s);
    case TakeMessage(env) => if Pending(s) { TakeKeeps(k, s, env); } else { TakeDoneKeeps(k, s, env); }
    case Loop(op) => LoopOpKeeps(k, s, op);
  }

  lemma NextKeeps(k: Kit, s: State, step: Protocol.Step)
    requires Inv(k, s) && Sound(s) && Protocol.Enabled(k, s, step)
    ensures Inv(k, Protocol.Next(k, s, step)) && Sound(Protocol.Next(k, s, step))
  {
    hide OtaRuns.Inv, Linked, Sound, Protocol.Next, Protocol.Enabled;
    DeviceKeeps(k, s, step);
    LinksKeep(k, s, step);
    InvIsSound(k, Protocol.Next(k, s, step));
  }

  /** Both tasks just after a reset. */
  predicate Booted(k: Kit, s: State, d: Durable, now: u32, env: ArmEnv) {
    s == State(Sleeping, None, 0, 0, [], [], false, false, PowerOn(d, now, env))
  }

  lemma BootKeeps(k: Kit, s: State, d: Durable, now: u32, env: ArmEnv)
    requires DurableInv(k, d) && Booted(k, s, d, now, env)
    ensures Inv(k, s) && Sound(s)
  {
    hide DurableInv, SignedManifest, Fenced;
    OtaSafety.PowerOnKeeps(k, d, now, env);
    assert s.dev.u == IDLE;
  }

  /** A run of both tasks from a reset of a board in a safe durable state. */
  ghost predicate Run(k: Kit, states: seq<State>, steps: seq<Protocol.Step>) {
    && |states| == |steps| + 1
    && (exists d: Durable, now: u32, env: ArmEnv :: DurableInv(k, d) && Booted(k, states[0], d, now, env))
    && forall i | 0 <= i < |steps| ::
         Sound(states[i]) && Protocol.Enabled(k, states[i], steps[i]) &&
             states[i + 1] == Protocol.Next(k, states[i], steps[i])
  }

  lemma {:induction false} RunKeeps(k: Kit, states: seq<State>, steps: seq<Protocol.Step>, i: nat)
    requires Run(k, states, steps) && i < |states|
    ensures Inv(k, states[i]) && Sound(states[i])
  {
    hide Inv, Sound, Protocol.Next, Protocol.Enabled, DurableInv, Booted;
    if i == 0 {
      var d: Durable, now: u32, env: ArmEnv :| DurableInv(k, d) && Booted(k, states[0], d, now, env);
      BootKeeps(k, states[0], d, now, env);
    } else {
      RunKeeps(k, states, steps, i - 1);
      NextKeeps(k, states[i - 1], steps[i - 1]);
      assert states[i] == Protocol.Next(k, states[i - 1], steps[i - 1]);
    }
  }

  // ---- One sequential writer ---------------------------------------------------------------------------------

  /** What both tasks and their queues amount to: one image, written from its first byte on, selected at its last. */
  datatype Sequential = Closed | Open(written: seq<byte>) | Committed(image: seq<byte>)

  function Abstract(s: State): Sequential
    requires Shaped(s.dev)
  {
    if Own(s.dev) && s.dev.u.phase == Receiving then Open(Slot(s.dev))
    else if Own(s.dev) && s.dev.u.phase == RebootPending then Committed(Slot(s.dev))
    else Closed
  }

  /** The image bytes of the package that the network delivered so far. */
  function Stream(s: State): seq<byte> {
    if s.job.Some? && |s.job.value.payload| >= HEADER_BYTES then s.job.value.payload[HEADER_BYTES..] else []
  }

  /** The response body has ended and has the announced size. */
  predicate Complete(s: State) {
    s.job.Some? && s.job.value.body.done && |s.job.value.payload| == s.job.value.size
  }

  predicate SequentialStep(a: Sequential, b: Sequential, stream: seq<byte>, complete: bool) {
    match b
    case Closed => !a.Committed?
    case Open(written) => a == b || (a.Closed? && written == []) || (a.Open? && a.written < written <= stream)
    case Committed(image) => a == b || (a.Open? && a.written < image == stream && complete)
  }

  lemma SelectedStays(k: Kit, s: State, step: Protocol.Step)
    requires Sound(s) && Protocol.Enabled(k, s, step)
    ensures StaysSelected(s.dev, Protocol.Next(k, s, step).dev)
  {
    hide Exec, Handle, OtaRuns.Enabled, Chunked.Feed, Wanted, CanUpdate, ValidToken;
    match step
    case TakeMessage(env) => HandleStays(k, s.dev, s.messages[0], env);
    case Loop(op) => OpStays(k, s.dev, op);
    case _ =>
  }

  lemma UnchangedRefines(s: State, next: State)
    requires Shaped(s.dev) && Untouched(s.dev, next.dev) && StaysSelected(s.dev, next.dev)
    ensures SequentialStep(Abstract(s), Abstract(next), Stream(next), Complete(next))
  {
  }

  lemma TakeRefines(k: Kit, s: State, env: TakeEnv)
    requires Linked(s) && Proper(s.dev) && Pending(s) && Linked(Take(k, s, env))
    requires StaysSelected(s.dev, Take(k, s, env).dev)
    ensures var next := Take(k, s, env); SequentialStep(Abstract(s), Abstract(next), Stream(next), Complete(next))
  {
    hide JobInv, Handle, ValidToken, QueueInv;
    JobBounds(s.job.value);
    MessageHandled(k, s.dev, s.messages[0], env);
    JobOfMessage(s);
  }

  /** Refinement: every atomic step of either task is one step of the sequential writer, or none. */
  lemma StepRefines(k: Kit, s: State, step: Protocol.Step)
    requires Inv(k, s) && Sound(s) && Protocol.Enabled(k, s, step)
    ensures var next := Protocol.Next(k, s, step);
            Shaped(next.dev) && SequentialStep(Abstract(s), Abstract(next), Stream(next), Complete(next))
  {
    hide OtaRuns.Inv, Exec, Handle, OtaRuns.Enabled, CanUpdate, ValidToken, JobInv, Chunked.Feed, Wanted, Filled,
        TransferInv, SelectedInv;
    SelectedStays(k, s, step);
    LinksKeep(k, s, step);
    var next := Protocol.Next(k, s, step);
    match step
    case TakeMessage(env) =>
      if Pending(s) { TakeRefines(k, s, env); } else { UnchangedRefines(s, next); }
    case Loop(op) =>
      LoopOpUntouched(k, s, op);
      UnchangedRefines(s, next);
    case _ => UnchangedRefines(s, next);
  }

  // ---- The guarantees ----------------------------------------------------------------------------------------

  /** Every exchange finds the message queue empty, and the final result always fits. */
  lemma QueuesSuffice(k: Kit, states: seq<State>, steps: seq<Protocol.Step>, i: nat)
    requires Run(k, states, steps) && i < |states|
    ensures states[i].pc == Fetching ==> states[i].messages == []
    ensures states[i].pc == Finishing ==> |states[i].messages| < MESSAGE_CAPACITY
    ensures !states[i].busy ==> states[i].messages == [] && states[i].requests == 0 && states[i].pc == Sleeping
  {
    hide OtaRuns.Inv, Run, WorkerInv, TransferInv, SelectedInv, LoopInv, Sound;
    RunKeeps(k, states, steps, i);
  }

  /** While a GitHub transfer is open, the slot holds exactly the first received image bytes that the body decoder
      marked in the raw response, in order, without gap or repetition. */
  lemma WrittenIsPrefix(k: Kit, states: seq<State>, steps: seq<Protocol.Step>, i: nat)
    requires Run(k, states, steps) && i < |states|
    requires Shaped(states[i].dev) && Own(states[i].dev) && states[i].dev.u.phase == Receiving
    ensures states[i].busy && states[i].job.Some?
    ensures var j, n := states[i].job.value, Position(states[i].dev);
            Chunked.FeedAll(Chunked.Start(j.head, j.size), j.raw, []) == Some((j.body, j.payload)) &&
            n <= |j.payload| <= j.size && Slot(states[i].dev) == j.payload[HEADER_BYTES..n]
  {
    hide OtaRuns.Inv, Run, QueueInv, SelectedInv, LoopInv, Sound, Chunked.FeedAll, Chunked.Start;
    RunKeeps(k, states, steps, i);
  }

  /** An image selected for a GitHub update is the whole package payload after its header, and the response body
      had been decoded to its very end. */
  lemma SelectedIsComplete(k: Kit, states: seq<State>, steps: seq<Protocol.Step>, i: nat)
    requires Run(k, states, steps) && i < |states|
    requires Shaped(states[i].dev) && Own(states[i].dev) && states[i].dev.u.phase == RebootPending
    ensures states[i].job.Some?
    ensures var j := states[i].job.value;
            Chunked.FeedAll(Chunked.Start(j.head, j.size), j.raw, []) == Some((j.body, j.payload)) &&
            j.body.done && HEADER_BYTES <= |j.payload| == j.size && Slot(states[i].dev) == j.payload[HEADER_BYTES..]
  {
    hide OtaRuns.Inv, Run, QueueInv, TransferInv, LoopInv, Sound, Chunked.FeedAll, Chunked.Start;
    RunKeeps(k, states, steps, i);
  }

  /** No transfer opened over HTTP is in progress while a job runs, and none of ours while none does. */
  lemma OneWriter(k: Kit, states: seq<State>, steps: seq<Protocol.Step>, i: nat)
    requires Run(k, states, steps) && i < |states|
    ensures states[i].dev.u.phase == Receiving ==> (states[i].busy <==> states[i].dev.u.origin == GithubPull)
  {
    hide OtaRuns.Inv, Run, QueueInv, WorkerInv, SelectedInv, Sound;
    RunKeeps(k, states, steps, i);
  }

  /** A chunked response behind a selected image was, byte for byte, one chunked encoding of the package. */
  lemma SelectedIsEncoding(k: Kit, states: seq<State>, steps: seq<Protocol.Step>, i: nat)
    requires Run(k, states, steps) && i < |states|
    requires Shaped(states[i].dev) && Own(states[i].dev) && states[i].dev.u.phase == RebootPending
    requires states[i].job.Some? && states[i].job.value.head.chunked
    ensures exists body: ChunkedText.Encoded ::
              body.Ok(states[i].job.value.size) && body.Text() == states[i].job.value.raw &&
              ChunkedText.DataOf(body.chunks) == states[i].job.value.payload
  {
    hide OtaRuns.Inv, Run, QueueInv, TransferInv, LoopInv, Sound, Chunked.FeedAll, Chunked.Start, ChunkedText.DataOf;
    RunKeeps(k, states, steps, i);
    var j := states[i].job.value;
    assert j.head == Chunked.Head(false, 0, true);
    ChunkedText.DecodesExactlyEncodings(j.size, j.raw, j.payload);
  }

  /** Before the counter has come round once, every number is fresh. */
  lemma FreshBeforeWrap(k: Kit, s: State)
    requires Inv(k, s) && s.exchanges + 1 < 0x1_0000_0000
    ensures FreshNumber(s)
  {
    hide OtaRuns.Inv, QueueInv, TransferInv, SelectedInv, LoopInv, JobInv;
  }

  /** The exact condition: right after posting, the worker takes an acknowledgement for its own before the loop has
      seen the message if and only if the one left in the queue carries the new number. */
  lemma PrematureExactly(k: Kit, s: State)
    requires Inv(k, s) && s.pc == Fetching && Filled(s.job.value)
    ensures var posted := Post(s, true);
            posted.pc == Awaiting && |posted.messages| == 1 &&
            (|posted.acks| > 0 && ReadAck(posted).pc != Awaiting <==> !FreshNumber(s))
  {
    hide OtaRuns.Inv, TransferInv, SelectedInv, LoopInv, Chunked.FeedAll, Filled, Outgoing;
  }

  // ---- The device's part of a step ---------------------------------------------------------------------------

  lemma PerformsNothing(k: Kit, s: Device)
    ensures Performs(k, s, [], [], s)
  {
  }

  lemma PerformsOne(k: Kit, s: Device, op: Op)
    requires Proper(s) && OtaRuns.Enabled(k, s, op)
    ensures Performs(k, s, [op], Exec(k, s, op).1, Exec(k, s, op).0)
  {
    hide OtaRuns.Enabled, Exec, Proper;
    var (next, cuts) := Exec(k, s, op);
    assert [op][1..] == [] && cuts[|cuts|..] == [];
  }

  lemma PerformsTwo(k: Kit, s: Device, a: Op, b: Op)
    requires Proper(s) && OtaRuns.Enabled(k, s, a) && Exec(k, s, a).1 == []
    requires Proper(Exec(k, s, a).0) && OtaRuns.Enabled(k, Exec(k, s, a).0, b)
    ensures Performs(k, s, [a, b], Exec(k, Exec(k, s, a).0, b).1, Exec(k, Exec(k, s, a).0, b).0)
  {
    hide OtaRuns.Enabled, Exec, Proper;
    var next := Exec(k, s, a).0;
    PerformsOne(k, next, b);
    var cuts := Exec(k, next, b).1;
    assert [a, b][1..] == [b] && cuts[0..] == cuts;
  }

  /** What a message does to the device is what its update operations do, durable states included. */
  lemma HandlePerforms(k: Kit, s: Device, m: Message, env: TakeEnv) returns (cuts: seq<Durable>)
    requires Proper(s) && OtaRuns.Inv(k, s) && s.begun && env.Possible() && !m.Done?
    ensures Performs(k, s, HandleOps(k, s, m, env), cuts, Handle(k, s, m, env).0)
  {
    hide OtaRuns.Inv, PrepareRun, StartRun, ChunkRun, CanUpdate, DecodePackage, ValidToken, PrepareAccepts, Performs;
    PerformsNothing(k, s);
    cuts := [];
    if GatesOpen(k, s, env) {
      if m.Header? {
        cuts := HeaderPerforms(k, s, m, env);
      } else if s.u.origin == GithubPull {
        var op := DoChunk(m.bytes, env.now, env.chunk);
        PerformsOne(k, s, op);
        cuts := Exec(k, s, op).1;
      }
    }
  }

  lemma HeaderPerforms(k: Kit, s: Device, m: Message, env: TakeEnv) returns (cuts: seq<Durable>)
    requires Proper(s) && OtaRuns.Inv(k, s) && s.begun && env.Possible() && m.Header? && GatesOpen(k, s, env)
    ensures Performs(k, s, HeaderOps(k, s, m.version, m.size, m.bytes, env), cuts,
                     TakeHeader(k, s, m.version, m.size, m.bytes, env).0)
  {
    hide OtaRuns.Inv, PrepareRun, StartRun, CanUpdate, DecodePackage, ValidToken, PrepareAccepts, Performs;
    PerformsNothing(k, s);
    cuts := [];
    if |m.bytes| == HEADER_BYTES && DecodePackage(m.bytes[..PACKAGE_MANIFEST_BYTES]).Some? {
      var preview := DecodePackage(m.bytes[..PACKAGE_MANIFEST_BYTES]).value;
      if preview.version == m.version && preview.imageSize + HEADER_BYTES == m.size {
        var prepare := DoPrepare(m.bytes, env.token, GithubPull, env.now, env.fault);
        PrepareLeaves(k, s, m.bytes, env.token, GithubPull, env.now, env.fault);
        PerformsOne(k, s, prepare);
        if PrepareAccepts(k, s, m.bytes, env.token, GithubPull, env.now, env.fault) {
          var start := DoStart(env.token, preview.imageSize, env.now, env.start);
          PerformsTwo(k, s, prepare, start);
          cuts := Exec(k, Exec(k, s, prepare).0, start).1;
        }
      }
    }
  }

  /** Every step of either task is a sequence of enabled update operations of the device. */
  lemma StepPerforms(k: Kit, s: State, step: Protocol.Step) returns (cuts: seq<Durable>)
    requires Inv(k, s) && Sound(s) && Protocol.Enabled(k, s, step)
    ensures Performs(k, s.dev, Ops(k, s, step), cuts, Protocol.Next(k, s, step).dev)
  {
    hide OtaRuns.Inv, QueueInv, WorkerInv, TransferInv, SelectedInv, Exec, Handle, HandleOps, Chunked.Feed, Wanted,
        CanUpdate,
         ValidToken, Performs, SameRecords;
    PerformsNothing(k, s.dev);
    cuts := [];
    match step
    case JobTimeout => if Own(s.dev) { PerformsInterrupt(k, s.dev); }
    case TakeMessage(env) =>
      if s.messages[0].Done? {
        if Own(s.dev) && s.dev.u.phase != RebootPending { PerformsInterrupt(k, s.dev); }
      } else {
        cuts := HandlePerforms(k, s.dev, s.messages[0], env);
      }
    case Loop(op) =>
      PerformsOne(k, s.dev, op);
      cuts := Exec(k, s.dev, op).1;
    case _ =>
  }

  lemma PerformsInterrupt(k: Kit, s: Device)
    requires Proper(s) && Own(s)
    ensures Performs(k, s, [DoInterrupt], [], InterruptOwn(s))
  {
    hide Performs, ValidToken;
    PerformsOne(k, s, DoInterrupt);
  }
}
