/** What the update code must do: exactly when each operation says yes, and that a sound update on working hardware is
    installed, started and confirmed. */
module OtaLive {
  import opened Bytes
  import opened Clock
  import opened Manifest
  import opened Hardware
  import opened OtaSpec
  import opened OtaRuns
  import OtaSafety

  // ---- prepare ---------------------------------------------------------------------------------------------

  /** The bytes are m's canonical encoding and a signature of it under the device's key. */
  ghost predicate Envelope(k: Kit, bytes: seq<byte>, origin: Origin, m: Manifest) {
    var n := if origin == LegacyPush then 116 else 128;
    && |bytes| == n + 64 && k.verify(bytes[n..], k.key, bytes[..n])
    && (if origin == LegacyPush then m.Canonical() && m == m.Legacy() && bytes[..n] == EncodeManifest(m)
        else PackageCanonical(m) && bytes[..n] == EncodePackage(m))
  }

  lemma EnvelopeDecodes(k: Kit, bytes: seq<byte>, origin: Origin, m: Manifest)
    ensures Envelope(k, bytes, origin, m) <==>
            var n := ManifestSize(origin);
            |bytes| == n + ENVELOPE_SIGNATURE && DecodeFor(origin, bytes[..n]) == Some(m) &&
            k.verify(bytes[n..], k.key, bytes[..n])
  {
    hide DecodeManifest, DecodePackage, EncodeManifest, EncodePackage, TextField;
    var n := ManifestSize(origin);
    if |bytes| == n + ENVELOPE_SIGNATURE {
      if origin == LegacyPush {
        if m.Canonical() { DecodeOfEncode(m); }
        if DecodeManifest(bytes[..n]).Some? { EncodeOfDecode(bytes[..n]); }
      } else {
        if PackageCanonical(m) { DecodeOfEncodePackage(m); }
        if DecodePackage(bytes[..n]).Some? { EncodeOfDecodePackage(bytes[..n]); }
      }
    }
  }

  /** An envelope this device should take: for it, and newer than what runs. */
  ghost predicate Admissible(k: Kit, running: u32, bytes: seq<byte>, origin: Origin, m: Manifest) {
    Envelope(k, bytes, origin, m) && Fits(k, m, origin) && m.version > running
  }

  /** Above the recorded attempt; a record that cannot be read is above everything. */
  predicate AboveRecord(nvs: Blobs, version: u32) {
    match ReadContext(nvs, false)
    case NoRecord => true
    case Valid(c) => version > c.manifest.version
    case Invalid => false
  }

  lemma ExaminesExactly(k: Kit, running: u32, bytes: seq<byte>, origin: Origin, m: Manifest)
    ensures Examine(k, running, bytes, origin) == (NoReason, m) <==> Admissible(k, running, bytes, origin, m)
  {
    hide DecodeManifest, DecodePackage, Envelope, CStr, TextField;
    EnvelopeDecodes(k, bytes, origin, m);
  }

  /** Nothing in hand that is still good at this time. */
  predicate Free(u: Updater, now: u32) {
    match u.phase
    case Idle => true
    case Failed => true
    case Prepared => Elapsed(now, u.started, 30000)
    case Receiving => Elapsed(now, u.started, 120000) || Elapsed(now, u.progress, 8000)
    case RebootPending => false
  }

  /** prepare accepts exactly an admissible envelope above the recorded attempt, with nothing in hand, a usable key, a
      valid new token and a record that can be read; and then it holds exactly that attempt. */
  lemma PreparesExactly(k: Kit, s: Device, bytes: seq<byte>, token: seq<byte>, origin: Origin, now: u32, fault: bool)
    requires Shaped(s)
    ensures PrepareAccepts(k, s, bytes, token, origin, now, fault) <==>
            && Free(s.u, now) && UsableKey(k.key) && ValidToken(token) && !fault
            && exists m: Manifest :: Admissible(k, Id(k, s).version, bytes, origin, m) &&
                AboveRecord(s.d.nvs, m.version)
    ensures PrepareAccepts(k, s, bytes, token, origin, now, fault) ==>
            exists m: Manifest ::
              Admissible(k, Id(k, s).version, bytes, origin, m) && AboveRecord(s.d.nvs, m.version) &&
              PrepareRun(k, s, bytes, token, origin, now, fault).u ==
              Updater(Prepared, NoReason, m, origin, token, now, now, 0)
  {
    hide Admissible, Examine, UsableKey, ValidToken, DecodeContext, Elapsed, CStr;
    var running := Id(k, s).version;
    var (reason, m) := Examine(k, running, bytes, origin);
    ExaminesExactly(k, running, bytes, origin, m);
    forall other: Manifest | Admissible(k, running, bytes, origin, other) ensures reason == NoReason && other == m {
      ExaminesExactly(k, running, bytes, origin, other);
    }
  }

  /** A refused preparation leaves a transaction that is still good alone; otherwise it ends in failure. */
  lemma RefusalLeaves(k: Kit, s: Device, bytes: seq<byte>, token: seq<byte>, origin: Origin, now: u32, fault: bool)
    requires Shaped(s) && !PrepareAccepts(k, s, bytes, token, origin, now, fault)
    ensures var r := PrepareRun(k, s, bytes, token, origin, now, fault);
            && r.d == s.d && r.rt == s.rt && r.running == s.running
            && (if Free(s.u, now) then r.u.phase == Failed && r.u.token == []
                else r == s.(u := s.u.(reason := OtaBusy)))
  {
    hide Examine, UsableKey, ValidToken, ReadContext, Elapsed;
  }

  /** A start under another token changes nothing about a preparation that is still good, nor does one without a
      preparation about a transfer that is. */
  lemma StrangersChangeNothing(k: Kit, s: Device, token: seq<byte>, size: nat, now: u32, env: StartEnv)
    requires Shaped(s) && !Free(s.u, now) && (s.u.phase == Prepared ==> token != s.u.token)
    ensures StartRun(k, s, token, size, now, env) ==
            (s.(u := s.u.(reason := if s.u.phase == Prepared then TokenRejected else NotPrepared)), [])
  {
    hide Elapsed, ValidToken, Authorize, OtaSpec.Begin;
  }

  /** Bytes without an open transfer change nothing. */
  lemma ChunkNeedsTransfer(k: Kit, s: Device, bytes: seq<byte>, now: u32, env: ChunkEnv)
    requires Proper(s) && s.u.phase != Receiving && s.u.phase != Prepared
    ensures ChunkRun(k, s, bytes, now, env) == (s, [])
  {
    hide Elapsed, ValidToken, Write, CompleteRun;
  }

  // ---- Runs --------------------------------------------------------------------------------------------------

  /** In every run, wherever power is cut: what is in hand, and everything that was ever selected for boot, is for this
      board, within its schema and updater, and on the stable channel if it is a package. */
  lemma OnlyFittingSelected(k: Kit, states: seq<Device>, steps: seq<Step>, i: nat, d: Durable, e: nat)
    requires Run(k, states, steps) && OtaSafety.Reached(k, states, steps, i, d)
    ensures states[i].u.phase == Prepared || states[i].u.phase == Receiving ==>
              Fits(k, states[i].u.manifest, states[i].u.origin)
    ensures e < |d.history| && d.history[e].BootSelected? ==>
              Fits(k, d.history[e].attempt.manifest, d.history[e].attempt.origin)
  {
    hide HistoryOk, BootSafe, ContextTracked, SelectionKept, Run, Exec, CStr, Fenced, BootInv, RuntimeInv;
    OtaSafety.ReachedIsSafe(k, states, steps, i, d);
  }

  // ---- start and chunk, whatever the hardware answers -------------------------------------------------------------------

  function OtherSlot(s: Device): seq<byte>
    requires Shaped(s)
  {
    s.d.slots[if s.running == 0 then 1 else 0]
  }

  /** The calls start depends on: a package also needs its record read, written and read back. */
  predicate StartWorks(env: StartEnv, origin: Origin) {
    && env.partitions && env.begins && env.hashStarts
    && (origin != LegacyPush ==> !env.contextFault && env.contextWrite.confirmed)
  }

  /** start opens the transfer exactly for the prepared token and size, within 30 s, if the image fits the slot and the
      calls work. */
  lemma StartsExactly(k: Kit, s: Device, token: seq<byte>, size: nat, now: u32, env: StartEnv)
    requires OtaRuns.Inv(k, s) && CanUpdate(s.rt, k) && s.u.phase == Prepared && env.contextWrite.Possible()
    ensures var r := StartRun(k, s, token, size, now, env).0;
            && (r.u.phase == Receiving <==>
                  && !Elapsed(now, s.u.started, 30000) && token == s.u.token
                  && size == s.u.manifest.imageSize <= k.slotBytes && StartWorks(env, s.u.origin))
            && (r.u.phase == Receiving ==>
                  && OtaRuns.Inv(k, r) && OtherSlot(r) == [] && r.running == s.running && r.rt == s.rt &&
                      r.begun == s.begun
                  && r.u == s.u.(phase := Receiving, started := now, progress := now))
            && (r.u.phase == Receiving || r.u.phase == Failed || r.u == s.u.(reason := TokenRejected))
  {
    hide DurableInv, BootOrigin, SignedManifest, ValidToken, EncodeContext, ReadContext, Elapsed, UsableKey;
    OtaSafety.StartKeeps(k, s, token, size, now, env);
    AvailableIsAbove(s.d, s.u.manifest);
  }

  lemma AvailableIsAbove(d: Durable, m: Manifest)
    ensures Available(d.nvs, m, false) <==> AboveFence(d, m.version)
    ensures !Available(d.nvs, m, true) && ReadContext(d.nvs, true) == Invalid
  {
    hide DecodeContext;
  }

  /** A chunk within the deadlines, of at most 1024 bytes and within the image: the slot grows by exactly its bytes. */
  predicate Acceptable(u: Updater, size: nat, now: u32) {
    && u.phase == Receiving && !Elapsed(now, u.started, 120000) && !Elapsed(now, u.progress, 8000)
    && 0 < size <= 1024 && u.received + size <= u.manifest.imageSize
  }

  /** The calls selection depends on: the image's end, its journal read back, the switch, and for a package its
      record, which select reads again. */
  predicate SelectWorks(env: ChunkEnv, origin: Origin) {
    && env.ends && env.hashes && env.journal.confirmed && env.switches
    && (origin != LegacyPush ==> !env.contextFault)
  }

  /** chunk goes on exactly with acceptable ones that are stored; the last one selects the image exactly if the digest is
      the signed one and the calls work. */
  lemma ChunksExactly(k: Kit, s: Device, bytes: seq<byte>, now: u32, env: ChunkEnv)
    requires OtaRuns.Inv(k, s) && Proper(s) && s.u.phase == Receiving && env.journal.Possible()
    ensures var r := ChunkRun(k, s, bytes, now, env).0;
            var image := OtherSlot(s) + bytes;
            var taken := Acceptable(s.u, |bytes|, now) && env.flash == Stored;
            var last := s.u.received + |bytes| == s.u.manifest.imageSize;
            && (r.u.phase == Receiving <==> taken && !last)
            && (r.u.phase == RebootPending <==>
                  taken && last && k.sha(image) == s.u.manifest.sha256 && SelectWorks(env, s.u.origin))
            && (r.u.phase == Failed || r.u.phase == Receiving || r.u.phase == RebootPending)
            && (r.u.phase == Receiving ==>
                  && OtaRuns.Inv(k, r) && Proper(r) && OtherSlot(r) == image && r.running == s.running
                  && r.u == s.u.(received := s.u.received + |bytes|, progress := now))
            && (r.u.phase == RebootPending ==>
                  Shaped(r) && OtherSlot(r) == image && r.d.boot == OtaSpec.Other(s.running) && r.d.image == Selected)
  {
    hide OtaRuns.Inv, ValidToken, ChunkRun, Acceptable, AsStored, ReadContext;
    OtaSafety.ChunkKeeps(k, s, bytes, now, env);
    TransferHolds(k, s);
    ChunkCases(k, s, bytes, now, env);
    KeptIsProper(k, ChunkRun(k, s, bytes, now, env).0);
  }

  lemma KeptIsProper(k: Kit, s: Device)
    requires OtaRuns.Inv(k, s)
    ensures Proper(s)
  {
    hide DurableInv, SignedManifest, Fenced;
  }

  /** What an open transfer holds. */
  predicate Open(s: Device) {
    && Shaped(s) && s.u.phase == Receiving && s.w.active && s.w.hashed == OtherSlot(s)
    && |OtherSlot(s)| == s.u.received < s.u.manifest.imageSize && ValidToken(s.u.token)
    && s.w.authorized == (if s.u.origin == LegacyPush then NO_CONTEXT else Context(s.u.manifest, s.u.token, s.u.origin))
    && (s.u.origin != LegacyPush ==>
          ReadContext(s.d.nvs, false) == Valid(AsStored(Context(s.u.manifest, s.u.token, s.u.origin))))
  }

  lemma TransferHolds(k: Kit, s: Device)
    requires OtaRuns.Inv(k, s) && s.u.phase == Receiving
    ensures Open(s)
  {
    hide DurableInv, SignedManifest, ReadContext, AsStored, ValidToken;
  }

  lemma ChunkCases(k: Kit, s: Device, bytes: seq<byte>, now: u32, env: ChunkEnv)
    requires Open(s) && env.journal.Possible()
    ensures var r := ChunkRun(k, s, bytes, now, env).0;
            var image := OtherSlot(s) + bytes;
            var taken := Acceptable(s.u, |bytes|, now) && env.flash == Stored;
            var last := s.u.received + |bytes| == s.u.manifest.imageSize;
            && r.u.phase == (if !taken then Failed else if !last then Receiving
                             else if k.sha(image) == s.u.manifest.sha256 && SelectWorks(env, s.u.origin)
                             then RebootPending else Failed)
            && (taken ==> Shaped(r) && r.running == s.running && OtherSlot(r) == image)
            && (r.u.phase == Receiving ==> r.u == s.u.(received := s.u.received + |bytes|, progress := now))
            && (r.u.phase == RebootPending ==> r.d.boot == OtaSpec.Other(s.running) && r.d.image == Selected)
  {
    hide ValidToken, Elapsed, CompleteRun, AsStored, ReadContext;
    if Acceptable(s.u, |bytes|, now) && env.flash == Stored {
      var (w, d, _) := Write(s.w, s.d, s.running, bytes, env);
      var next := s.(u := Progressed(s.u, |bytes|, now), w := w, d := d);
      assert OtherSlot(next) == OtherSlot(s) + bytes == w.hashed;
      if s.u.received + |bytes| == s.u.manifest.imageSize { CompletesExactly(k, next, env); }
    }
  }

  lemma CompletesExactly(k: Kit, s: Device, env: ChunkEnv)
    requires Shaped(s) && ValidToken(s.u.token) && env.journal.Possible() && s.w.active && s.w.hashed == OtherSlot(s)
    requires s.w.authorized == if s.u.origin == LegacyPush then NO_CONTEXT else Context(s.u.manifest, s.u.token,
             s.u.origin)
    requires s.u.origin != LegacyPush ==>
             ReadContext(s.d.nvs, false) == Valid(AsStored(Context(s.u.manifest, s.u.token, s.u.origin)))
    requires s.u.phase == Receiving
    ensures var r := CompleteRun(k, s, env).0;
            && r.u.phase == (if k.sha(OtherSlot(s)) == s.u.manifest.sha256 && SelectWorks(env, s.u.origin)
                             then RebootPending else Failed)
            && r.d.slots == s.d.slots && r.running == s.running
            && (r.u.phase == RebootPending ==>
                  r.d.boot == OtaSpec.Other(s.running) && r.d.image == Selected)
  {
    hide ValidToken, EncodeJournal, EncodeManifest, ReadContext;
    LegacyEncodesSame(s.u.manifest);
    AvailableIsAbove(s.d, s.u.manifest);
  }

  // ---- A whole update -------------------------------------------------------------------------------------------

  /** A chunk with its true time and what the hardware answers. */
  datatype Piece = Piece(t: nat, bytes: seq<byte>, env: ChunkEnv)

  function Joined(pieces: seq<Piece>): seq<byte> {
    if |pieces| == 0 then [] else pieces[0].bytes + Joined(pieces[1..])
  }

  /** Pieces of 1 to 1024 bytes, each less than 8 s after the one before and 120 s after the start, on working
      hardware. */
  predicate Timely(pieces: seq<Piece>, started: nat, progress: nat)
    decreases |pieces|
  {
    |pieces| == 0 ||
    (&& progress <= pieces[0].t && pieces[0].t - progress < 8000 && pieces[0].t - started < 120000
     && 0 < |pieces[0].bytes| <= 1024 && GoodChunk(pieces[0].env)
     && Timely(pieces[1..], started, pieces[0].t))
  }

  function FeedAll(k: Kit, s: Device, pieces: seq<Piece>): Device
    requires Proper(s)
    decreases |pieces|
  {
    if |pieces| == 0 then s
    else
      var next := ChunkRun(k, s, pieces[0].bytes, Millis(pieces[0].t), pieces[0].env).0;
      if Proper(next) then FeedAll(k, next, pieces[1..]) else next
  }

  /** Bytes that arrive in time make the image: it is selected for boot with exactly them in the slot, if and only if
      their digest is the signed one. */
  lemma {:induction false} TransfersExactly(k: Kit, s: Device, pieces: seq<Piece>, started: nat, progress: nat)
    requires OtaRuns.Inv(k, s) && Proper(s) && s.u.phase == Receiving
    requires s.u.started == Millis(started) && s.u.progress == Millis(progress) && started <= progress
    requires Timely(pieces, started, progress) && s.u.received + |Joined(pieces)| == s.u.manifest.imageSize
    ensures var r := FeedAll(k, s, pieces); var image := OtherSlot(s) + Joined(pieces);
            && (r.u.phase == RebootPending <==> k.sha(image) == s.u.manifest.sha256)
            && (r.u.phase == RebootPending ==>
                  Shaped(r) && OtherSlot(r) == image && r.d.boot == OtaSpec.Other(s.running) && r.d.image == Selected)
    decreases |pieces|
  {
    hide OtaRuns.Inv, ValidToken, ChunkRun, Millis, Elapsed;
    if |pieces| == 0 {
      ReceivingIsShort(k, s);
      assert false;
    }
    var p, rest := pieces[0], pieces[1..];
    ElapsedIsSound(p.t, started, 120000);
    ElapsedIsSound(p.t, progress, 8000);
    ChunksExactly(k, s, p.bytes, Millis(p.t), p.env);
    var next := ChunkRun(k, s, p.bytes, Millis(p.t), p.env).0;
    assert OtherSlot(s) + Joined(pieces) == (OtherSlot(s) + p.bytes) + Joined(rest);
    if |rest| == 0 {
      assert Joined(rest) == [] && OtherSlot(s) + Joined(pieces) == OtherSlot(s) + p.bytes;
    } else {
      assert |Joined(rest)| > 0 by { assert |rest[0].bytes| > 0; }
      TransfersExactly(k, next, rest, started, p.t);
    }
  }

  lemma ReceivingIsShort(k: Kit, s: Device)
    requires OtaRuns.Inv(k, s) && s.u.phase == Receiving
    ensures s.u.received < s.u.manifest.imageSize
  {
    hide DurableInv, SignedManifest, Fenced;
  }

  /** A sound update on working hardware is installed: an admissible envelope prepared, its token used within 30 s, and
      the image sent in time, end with exactly the image in the other slot, selected for the next boot. */
  lemma UpdateInstalls(k: Kit, s: Device, envelope: seq<byte>, token: seq<byte>, origin: Origin, m: Manifest, t0: nat,
                       t1: nat, env: StartEnv, pieces: seq<Piece>)
    requires OtaRuns.Inv(k, s) && CanUpdate(s.rt, k) && Free(s.u, Millis(t0)) && ValidToken(token)
    requires Admissible(k, Id(k, s).version, envelope, origin, m) && AboveRecord(s.d.nvs, m.version)
    requires m.imageSize <= k.slotBytes && t0 <= t1 < t0 + 30000 && GoodStart(env) && Timely(pieces, t1, t1)
    requires |Joined(pieces)| == m.imageSize && k.sha(Joined(pieces)) == m.sha256
    ensures var prepared := PrepareRun(k, s, envelope, token, origin, Millis(t0), false);
            var started := StartRun(k, prepared, token, m.imageSize, Millis(t1), env).0;
            Proper(started) &&
            var r := FeedAll(k, started, pieces);
            && r.u.phase == RebootPending && Shaped(r) && OtherSlot(r) == Joined(pieces)
            && r.d.boot == OtaSpec.Other(s.running) && r.d.image == Selected
  {
    hide OtaRuns.Inv, PrepareRun, StartRun, Admissible, AboveRecord, ValidToken, Millis, Elapsed, Timely, Joined,
        FeedAll,
         UsableKey, PrepareAccepts;
    assert Proper(s) by { KeptIsProper(k, s); }
    PreparesExactly(k, s, envelope, token, origin, Millis(t0), false);
    OtaSafety.PrepareKeeps(k, s, envelope, token, origin, Millis(t0), false);
    var prepared := PrepareRun(k, s, envelope, token, origin, Millis(t0), false);
    PrepareLeaves(k, s, envelope, token, origin, Millis(t0));
    assert prepared.u == Updater(Prepared, NoReason, m, origin, token, Millis(t0), Millis(t0), 0) by {
      OneAdmissible(k, Id(k, s).version, envelope, origin);
    }
    ElapsedIsSound(t1, t0, 30000);
    StartsExactly(k, prepared, token, m.imageSize, Millis(t1), env);
    var started := StartRun(k, prepared, token, m.imageSize, Millis(t1), env).0;
    KeptIsProper(k, started);
    TransfersExactly(k, started, pieces, t1, t1);
    assert [] + Joined(pieces) == Joined(pieces);
  }

  lemma OneAdmissible(k: Kit, running: u32, bytes: seq<byte>, origin: Origin)
    ensures forall m: Manifest, n: Manifest ::
              Admissible(k, running, bytes, origin, m) && Admissible(k, running, bytes, origin, n) ==> m == n
  {
    hide Admissible, Examine;
    forall m: Manifest, n: Manifest | Admissible(k, running, bytes, origin, m) &&
        Admissible(k, running, bytes, origin, n)
      ensures m == n {
      ExaminesExactly(k, running, bytes, origin, m);
      ExaminesExactly(k, running, bytes, origin, n);
    }
  }

  lemma PrepareLeaves(k: Kit, s: Device, bytes: seq<byte>, token: seq<byte>, origin: Origin, now: u32)
    requires Shaped(s)
    ensures var r := PrepareRun(k, s, bytes, token, origin, now, false);
            r.d == s.d && r.running == s.running && r.rt == s.rt && r.begun == s.begun
  {
    hide Examine, Available, Noted, OtaSpec.Prepare;
  }

  // ---- The boot of a selected image ------------------------------------------------------------------------------

  /** arm finds a trial exactly if the SDK knows the image to be on one, and a fault if its state is unknown or the
      watchdog cannot be had. */
  lemma ArmsExactly(image: ImageState, now: u32, env: ArmEnv)
    ensures var rt := Arm(image, now, env);
            && (rt.pending <==> env.stateKnown && image == OnTrial)
            && (rt.fatal <==> !env.stateKnown || !env.watchdog)
  {
  }

  /** With a fault a device takes no update and confirms no image, and its first poll gives up one on trial. */
  lemma FaultStops(k: Kit, id: Identity, rt: Runtime, nvs: Blobs, env: BeginEnv, token: seq<byte>, healthy: bool,
      now: u32)
    requires rt.fatal
    ensures BeginRuntime(rt, nvs, k, id, env) == (rt, false)
    ensures !CanUpdate(rt, k) && !MayConfirm(rt, k, id, token, healthy, now)
    ensures rt.pending ==>
              var (after, result) := Poll(rt, now, healthy);
              result == OtaSpec.Rollback && after.fatal && !after.pending
  {
    hide Recall, Matches, ValidToken, Elapsed;
  }

  /** A device that is not on trial offers updates exactly if it has no fault, a key, and records that can be read. */
  lemma OffersExactly(k: Kit, id: Identity, rt: Runtime, nvs: Blobs, env: BeginEnv)
    requires !rt.pending && !rt.contextError
    ensures var (begun, rollback) := BeginRuntime(rt, nvs, k, id, env);
            && !rollback
            && (CanUpdate(begun, k) <==>
                  && !rt.fatal && UsableKey(k.key) && GoodBegin(env) && !ReadContext(nvs, false).Invalid?
                  && ReadJournal(nvs, false) != Some(None))
  {
    hide DecodeContext, DecodeJournal, ContextMatches, Matches, UsableKey;
  }

  /** begin keeps an image on trial exactly if it is the release it was selected as, by version and build, and the
      records can be read; and then the trial runs under that attempt's transaction and origin. */
  lemma TrialSurvivesExactly(k: Kit, s: Device, env: BeginEnv)
    requires OtaRuns.Inv(k, s) && !s.begun && s.d.image == OnTrial && !s.rt.fatal
    ensures LastSelected(s.d.history).Some?
    ensures var a := LastSelected(s.d.history).value;
            var (rt, rollback) := BeginRuntime(s.rt, s.d.nvs, k, Id(k, s), env);
            && (!rollback <==> a.manifest.version == Id(k, s).version && CStr(a.manifest.buildId) == Id(k, s).buildId &&
                               GoodBegin(env) && !ReadContext(s.d.nvs, false).Invalid?)
            && (!rollback ==> rt.pending && !rt.fatal && rt.state == PendingVerify && rt.transaction == a.transaction &&
                              rt.origin == a.origin && rt.expected == a.manifest.Legacy())
            && (a.origin != LegacyPush ==> ReadContext(s.d.nvs, false).Valid?)
  {
    hide OtaRuns.Inv, BeginRuntime, LastSelected, CStr, ReadContext;
    TrialSurvives(k, s);
    if !GoodBegin(env) { FaultGivesUp(k, s.rt, s.d.nvs, Id(k, s), env); }
  }

  /** A failed read does not. */
  lemma FaultGivesUp(k: Kit, rt: Runtime, nvs: Blobs, id: Identity, env: BeginEnv)
    requires rt.pending && !rt.fatal && !GoodBegin(env)
    ensures BeginRuntime(rt, nvs, k, id, env).1
  {
    hide DecodeContext, DecodeJournal, ContextMatches, Matches;
  }

  /** begin of a trial whose reads work. */
  lemma TrialSurvives(k: Kit, s: Device)
    requires OtaRuns.Inv(k, s) && !s.begun && s.d.image == OnTrial && !s.rt.fatal
    ensures Shaped(s) && LastSelected(s.d.history).Some? && s.rt.pending
    ensures var a := LastSelected(s.d.history).value;
            var (rt, rollback) := BeginRuntime(s.rt, s.d.nvs, k, Id(k, s), BeginEnv(false, false));
            && (!rollback <==> a.manifest.version == Id(k, s).version && CStr(a.manifest.buildId) == Id(k, s).buildId &&
                               !ReadContext(s.d.nvs, false).Invalid?)
            && (!rollback ==> rt.pending && !rt.fatal && rt.state == PendingVerify && rt.transaction == a.transaction &&
                              rt.origin == a.origin && rt.expected == a.manifest.Legacy())
            && (a.origin != LegacyPush ==> ReadContext(s.d.nvs, false).Valid?)
  {
    hide BootSafe, ContextTracked, HistoryOk, UpdaterInv, ReadContext, LastSelected, CStr, ContextMatches,
        SignedManifest;
    var a := LastSelected(s.d.history).value;
    LastIsSelected(s.d.history);
    assert Fits(k, a.manifest, a.origin) by { SignedFits(k, a.manifest, a.origin); }
    OtaSafety.RecallKeepsOrigin(k, s, BeginEnv(false, false));
  }

  lemma SignedFits(k: Kit, m: Manifest, origin: Origin)
    requires SignedManifest(k, m, origin)
    ensures Fits(k, m, origin)
  {
    hide CStr;
  }

  lemma {:induction false} LastIsSelected(h: seq<Event>)
    requires LastSelected(h).Some?
    ensures exists i :: 0 <= i < |h| && h[i].BootSelected? && h[i].attempt == LastSelected(h).value
    decreases |h|
  {
    if !h[|h| - 1].BootSelected? { LastIsSelected(h[..|h| - 1]); }
  }
}
