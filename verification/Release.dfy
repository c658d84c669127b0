/** What the main loop makes of a release sent to it in messages: in time and on working hardware it is installed. */
module Release {
  import opened Bytes
  import opened Clock
  import opened Manifest
  import opened Hardware
  import opened OtaSpec
  import opened OtaRuns
  import opened Protocol
  import opened OtaLive
  import Delivery
  import OtaSafety

  /** When a message is handled, and what with. */
  datatype Handling = Handling(t: nat, env: TakeEnv)

  /** Each message within the gates, less than 8 s after the one before and 120 s after the first, on working hardware;
      their clock readings are the true times'. */
  predicate InTime(handlings: seq<Handling>, started: nat, progress: nat)
    decreases |handlings|
  {
    |handlings| == 0 ||
    (var h := handlings[0];
     && progress <= h.t && h.t - progress < 8000 && h.t - started < 120000
     && h.env.now == Millis(h.t) && !h.env.late && !h.env.jobOver && h.env.healthy && h.env.Works()
     && InTime(handlings[1..], started, h.t))
  }

  /** The device after these messages, and whether each was accepted. */
  function HandleAll(k: Kit, s: Device, messages: seq<Message>, handlings: seq<Handling>): (Device, bool)
    requires |messages| == |handlings|
    decreases |messages|
  {
    if |messages| == 0 then (s, true)
    else if !Proper(s) then (s, false)
    else
      var (next, accepted) := Handle(k, s, messages[0], handlings[0].env);
      var (last, rest) := HandleAll(k, next, messages[1..], handlings[1..]);
      (last, accepted && rest)
  }

  /** A release this device should take: a signed package for it, newer than what runs and than any recorded attempt,
      whose image fits the slot. */
  ghost predicate Takes(k: Kit, s: Device, payload: seq<byte>, m: Manifest) {
    && Shaped(s) && |payload| == 192 + m.imageSize < 0x1_0000_0000 && 0 < m.imageSize <= k.slotBytes
    && Admissible(k, Id(k, s).version, payload[..192], GithubPull, m) && AboveRecord(s.d.nvs, m.version)
  }

  // ---- One message -----------------------------------------------------------------------------------------------

  /** Fresh enough, in a job that still runs, on a healthy device that may update. */
  predicate Welcome(k: Kit, s: Device, env: TakeEnv) {
    !env.late && !env.jobOver && env.healthy && CanUpdate(s.rt, k)
  }

  /** A header this device should open a transfer for: an admissible envelope that names what the worker announced. */
  ghost predicate GoodHeader(k: Kit, s: Device, m: Message, release: Manifest)
    requires m.Header? && Shaped(s)
  {
    && Admissible(k, Id(k, s).version, m.bytes, GithubPull, release) && AboveRecord(s.d.nvs, release.version)
    && release.version == m.version && release.imageSize + 192 == m.size && release.imageSize <= k.slotBytes
  }

  /** A header is accepted exactly if it is welcome, good, nothing else is in hand and the calls work; without a welcome
      nothing changes. */
  lemma HeaderTakenExactly(k: Kit, s: Device, m: Message, env: TakeEnv)
    requires OtaRuns.Inv(k, s) && Proper(s) && m.Header? && env.Possible()
    ensures Handle(k, s, m, env).1 <==>
            && Welcome(k, s, env) && Free(s.u, env.now) && ValidToken(env.token) && !env.fault
            && StartWorks(env.start, GithubPull) && exists release: Manifest :: GoodHeader(k, s, m, release)
    ensures !Welcome(k, s, env) ==> Handle(k, s, m, env) == (s, false)
  {
    hide OtaRuns.Inv, ValidToken, Elapsed, CanUpdate, GoodStart, GoodChunk, Envelope, PrepareRun, StartRun,
         PrepareAccepts, Free, AboveRecord, DecodePackage, Fits, UsableKey, StartWorks;
    var running, bytes, now := Id(k, s).version, m.bytes, env.now;
    forall release: Manifest | Envelope(k, bytes, GithubPull, release)
      ensures |bytes| == 192 && DecodePackage(bytes[..128]) == Some(release) {
      EnvelopeDecodes(k, bytes, GithubPull, release);
    }
    if Welcome(k, s, env) {
      UpdatesNeedKey(k, s);
      PreparesExactly(k, s, bytes, env.token, GithubPull, now, env.fault);
      OneAdmissible(k, running, bytes, GithubPull);
      if PrepareAccepts(k, s, bytes, env.token, GithubPull, now, env.fault) {
        var release: Manifest :|
          Admissible(k, running, bytes, GithubPull, release) && AboveRecord(s.d.nvs, release.version) &&
          PrepareRun(k, s, bytes, env.token, GithubPull, now, env.fault).u ==
          Updater(Prepared, NoReason, release, GithubPull, env.token, now, now, 0);
        assert DecodePackage(bytes[..128]) == Some(release) && |bytes| == 192;
        HeaderStarts(k, s, m, env);
        forall other: Manifest | GoodHeader(k, s, m, other) ensures other == release {}
        if release.version == m.version && release.imageSize + 192 == m.size && release.imageSize <= k.slotBytes {
          assert GoodHeader(k, s, m, release);
        }
      }
    }
  }

  /** After a preparation, start decides. */
  lemma HeaderStarts(k: Kit, s: Device, m: Message, env: TakeEnv)
    requires OtaRuns.Inv(k, s) && Proper(s) && CanUpdate(s.rt, k) && m.Header? && env.Possible()
    requires PrepareAccepts(k, s, m.bytes, env.token, GithubPull, env.now, env.fault)
    ensures var prepared := PrepareRun(k, s, m.bytes, env.token, GithubPull, env.now, env.fault);
            && Shaped(prepared) && prepared.u.phase == Prepared
            && (StartRun(k, prepared, env.token, prepared.u.manifest.imageSize, env.now, env.start).0.u.phase ==
                Receiving <==>
                prepared.u.manifest.imageSize <= k.slotBytes && StartWorks(env.start, GithubPull))
  {
    hide OtaRuns.Inv, ValidToken, CanUpdate, PrepareRun, StartRun, PrepareAccepts, Free, AboveRecord, Admissible,
         UsableKey, StartWorks;
    var bytes, now := m.bytes, env.now;
    PreparesExactly(k, s, bytes, env.token, GithubPull, now, env.fault);
    OtaSafety.PrepareKeeps(k, s, bytes, env.token, GithubPull, now, env.fault);
    PrepareLeaves(k, s, bytes, env.token, GithubPull, now);
    var prepared := PrepareRun(k, s, bytes, env.token, GithubPull, now, env.fault);
    KeptIsProper(k, prepared);
    StartsExactly(k, prepared, env.token, prepared.u.manifest.imageSize, now, env.start);
  }

  /** An image's message is accepted exactly if it is welcome and its bytes extend or complete an open transfer of ours;
      without a welcome, or in somebody else's, nothing changes. */
  lemma ImageTakenExactly(k: Kit, s: Device, m: Message, env: TakeEnv)
    requires OtaRuns.Inv(k, s) && Proper(s) && m.Image? && env.Possible()
    ensures Handle(k, s, m, env).1 <==>
            && Welcome(k, s, env) && s.u.origin == GithubPull && s.u.phase == Receiving
            && Acceptable(s.u, |m.bytes|, env.now) && env.chunk.flash == Stored
            && (s.u.received + |m.bytes| == s.u.manifest.imageSize ==>
                  k.sha(OtherSlot(s) + m.bytes) == s.u.manifest.sha256 && SelectWorks(env.chunk, GithubPull))
    ensures !Welcome(k, s, env) || s.u.origin != GithubPull ==> Handle(k, s, m, env) == (s, false)
  {
    hide OtaRuns.Inv, ValidToken, CanUpdate, ChunkRun, Acceptable, SelectWorks, GoodStart;
    if s.u.phase == Receiving {
      ChunksExactly(k, s, m.bytes, env.now, env.chunk);
    } else {
      NoTransferNoChunk(k, s, m.bytes, env.now, env.chunk);
    }
  }

  lemma NoTransferNoChunk(k: Kit, s: Device, bytes: seq<byte>, now: u32, env: ChunkEnv)
    requires Proper(s) && s.u.phase != Receiving
    ensures ChunkRun(k, s, bytes, now, env).0.u.phase != Receiving
  {
    hide Elapsed, ValidToken, Write, CompleteRun;
  }

  /** The job's own limit ends an open transfer of ours. */
  lemma JobLimitEnds(s: Device)
    requires s.u.origin == GithubPull && s.u.phase == Receiving
    ensures InterruptOwn(s).u.phase == Failed && !InterruptOwn(s).w.active && InterruptOwn(s).d == s.d
  {
  }

  // ---- A whole release ------------------------------------------------------------------------------------------

  /** The messages carry these pieces. */
  predicate Carries(messages: seq<Message>, pieces: seq<seq<byte>>) {
    |messages| == |pieces| && forall i | 0 <= i < |messages| :: messages[i].Image? && messages[i].bytes == pieces[i]
  }

  /** The installed image: selected for the next boot, exactly these bytes. */
  predicate Installed(s: Device, running: nat, image: seq<byte>) {
    && Shaped(s) && s.u.phase == RebootPending && s.u.origin == GithubPull && OtherSlot(s) == image
    && s.d.boot == OtaSpec.Other(running) && s.d.image == Selected
  }

  /** What is left of an image, sent to its open transfer: every message is accepted exactly if the digest is the signed
      one, and then the image is installed. */
  lemma {:induction false} ImageInstalls(k: Kit, s: Device, messages: seq<Message>, handlings: seq<Handling>,
      image: seq<byte>, started: nat, progress: nat)
    requires |messages| == |handlings| && Carries(messages, Delivery.Pieces(image)) && |image| > 0
    requires OtaRuns.Inv(k, s) && Proper(s) && s.u.phase == Receiving && s.u.origin == GithubPull && CanUpdate(s.rt, k)
    requires s.u.started == Millis(started) && s.u.progress == Millis(progress) && started <= progress
    requires InTime(handlings, started, progress) && s.u.received + |image| == s.u.manifest.imageSize
    ensures var (r, accepted) := HandleAll(k, s, messages, handlings);
            && (accepted <==> k.sha(OtherSlot(s) + image) == s.u.manifest.sha256)
            && (accepted ==> Installed(r, s.running, OtherSlot(s) + image))
    decreases |messages|
  {
    hide OtaRuns.Inv, ValidToken, ChunkRun, Millis, Elapsed, CanUpdate, GoodStart;
    var piece, h := messages[0].bytes, handlings[0];
    var rest := if |image| <= 1024 then [] else image[1024..];
    assert Delivery.Pieces(image)[0] == piece && piece + rest == image;
    ElapsedIsSound(h.t, started, 120000);
    ElapsedIsSound(h.t, progress, 8000);
    ChunksExactly(k, s, piece, h.env.now, h.env.chunk);
    ChunkKeepsRuntime(k, s, piece, h.env.now, h.env.chunk);
    var next := ChunkRun(k, s, piece, h.env.now, h.env.chunk).0;
    if |image| <= 1024 {
      assert piece == image && |messages| == 1;
      assert HandleAll(k, next, messages[1..], handlings[1..]) == (next, true);
    } else {
      assert Delivery.Pieces(image)[1..] == Delivery.Pieces(rest);
      assert OtherSlot(s) + image == (OtherSlot(s) + piece) + rest;
      ImageInstalls(k, next, messages[1..], handlings[1..], rest, started, h.t);
    }
  }

  lemma ChunkKeepsRuntime(k: Kit, s: Device, bytes: seq<byte>, now: u32, env: ChunkEnv)
    requires Proper(s)
    ensures var r := ChunkRun(k, s, bytes, now, env).0;
            r.rt == s.rt && r.begun == s.begun && r.running == s.running && r.u.origin == s.u.origin
  {
    hide Elapsed, Select, Journaled, Finish, ValidToken;
  }

  /** The header's message opens the transfer. */
  lemma HeaderOpens(k: Kit, s: Device, payload: seq<byte>, m: Manifest, header: Message, h: Handling)
    returns (started: Device)
    requires OtaRuns.Inv(k, s) && CanUpdate(s.rt, k) && Takes(k, s, payload, m)
    requires header.Header? && header.bytes == payload[..192] && header.version == m.version &&
             header.size == |payload|
    requires Free(s.u, h.env.now) && ValidToken(h.env.token) && h.env.now == Millis(h.t)
    requires !h.env.late && !h.env.jobOver && h.env.healthy && h.env.Works()
    ensures Proper(s) && Handle(k, s, header, h.env) == (started, true)
    ensures OtaRuns.Inv(k, started) && Proper(started) && OtherSlot(started) == [] && started.running == s.running
    ensures started.rt == s.rt && started.u.phase == Receiving && started.u.received == 0
    ensures started.u.origin == GithubPull && started.u.manifest == m
    ensures started.u.started == Millis(h.t) && started.u.progress == Millis(h.t)
  {
    hide OtaRuns.Inv, ValidToken, Millis, Elapsed, CanUpdate, GoodChunk, Envelope, PrepareRun, StartRun,
         PrepareAccepts, Free, AboveRecord, DecodePackage, Fits, UsableKey;
    KeptIsProper(k, s);
    var running, bytes, now := Id(k, s).version, payload[..192], h.env.now;
    EnvelopeDecodes(k, bytes, GithubPull, m);
    assert UsableKey(k.key) by { UpdatesNeedKey(k, s); }
    PreparesExactly(k, s, bytes, h.env.token, GithubPull, now, h.env.fault);
    OneAdmissible(k, running, bytes, GithubPull);
    OtaSafety.PrepareKeeps(k, s, bytes, h.env.token, GithubPull, now, h.env.fault);
    PrepareLeaves(k, s, bytes, h.env.token, GithubPull, now);
    var prepared := PrepareRun(k, s, bytes, h.env.token, GithubPull, now, h.env.fault);
    ElapsedIsSound(h.t, h.t, 30000);
    StartsExactly(k, prepared, h.env.token, m.imageSize, now, h.env.start);
    started := StartRun(k, prepared, h.env.token, m.imageSize, now, h.env.start).0;
    KeptIsProper(k, started);
  }

  lemma UpdatesNeedKey(k: Kit, s: Device)
    requires CanUpdate(s.rt, k)
    ensures UsableKey(k.key)
  {
  }

  lemma PiecesAreSome(image: seq<byte>)
    requires |image| > 0
    ensures |Delivery.Pieces(image)| > 0
  {
  }

  /** The times after the header's. */
  lemma LaterInTime(handlings: seq<Handling>)
    requires |handlings| > 0 && InTime(handlings, handlings[0].t, handlings[0].t)
    ensures var h := handlings[0];
            && h.env.now == Millis(h.t) && !h.env.late && !h.env.jobOver && h.env.healthy && h.env.Works()
            && InTime(handlings[1..], h.t, h.t)
  {
    hide Millis, GoodStart, GoodChunk;
  }

  /** The whole release: its messages, as the worker sends them, handled in time on working hardware that has nothing in
      hand, are all accepted and install exactly the image, if and only if its digest is the signed one. */
  lemma ReleaseInstalls(k: Kit, s: Device, payload: seq<byte>, m: Manifest, first: nat, messages: seq<Message>,
      handlings: seq<Handling>)
    requires OtaRuns.Inv(k, s) && CanUpdate(s.rt, k) && Takes(k, s, payload, m) && |messages| == |handlings|
    requires Delivery.SentAs(messages, m.version, |payload|, first, payload)
    requires InTime(handlings, handlings[0].t, handlings[0].t) && Free(s.u, Millis(handlings[0].t))
    requires ValidToken(handlings[0].env.token)
    ensures var (r, accepted) := HandleAll(k, s, messages, handlings);
            && (accepted <==> k.sha(payload[192..]) == m.sha256)
            && (accepted ==> Installed(r, s.running, payload[192..]))
  {
    hide OtaRuns.Inv, ValidToken, Millis, Elapsed, CanUpdate, GoodStart, GoodChunk, InTime, Handle, Installed, Free,
         Admissible, AboveRecord, Delivery.Pieces, Proper;
    var image, h := payload[192..], handlings[0];
    assert Delivery.Slices(payload) == [payload[..192]] + Delivery.Pieces(image);
    assert messages[0] == Delivery.MessageAt(m.version, |payload|, first, 0, payload[..192]);
    LaterInTime(handlings);
    var started := HeaderOpens(k, s, payload, m, messages[0], h);
    PiecesAreSome(image);
    ImageMessages(messages, m.version, |payload|, first, payload);
    ImageInstalls(k, started, messages[1..], handlings[1..], image, h.t, h.t);
    assert [] + image == image;
  }

  lemma ImageMessages(messages: seq<Message>, version: u32, size: u32, first: nat, payload: seq<byte>)
    requires Delivery.SentAs(messages, version, size, first, payload) && |payload| >= 192
    ensures |messages| > 0 && Carries(messages[1..], Delivery.Pieces(payload[192..]))
  {
    hide Delivery.Pieces;
    forall i | 0 <= i < |messages| - 1 ensures messages[1..][i].Image? &&
        messages[1..][i].bytes == Delivery.Pieces(payload[192..])[i] {
      assert messages[i + 1] == Delivery.MessageAt(version, size, first, i + 1, Delivery.Slices(payload)[i + 1]);
    }
  }
}
