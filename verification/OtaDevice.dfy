/** The SDK's esp_ota calls on the board: each may fail, and each leaves one durable state. */
module EspOta {
  import opened Bytes
  import opened Manifest
  import opened Hardware
  import opened OtaSpec
  import OtaRuns

  /** esp_ota_begin: erases the slot; a failure leaves anything in it. */
  method BeginSlot(board: Board, slot: nat, a: Attempt) returns (ok: bool, ghost garbage: seq<byte>)
    requires slot < |board.d.slots|
    modifies board
    ensures board.d == SetSlot(Record(old(board.d), FlashBegun(a)), slot, if ok then [] else garbage)
    ensures board.sound ==> ok
    ensures board.log == old(board.log) + [board.d]
  {
    ok := board.Works();
    var left: seq<byte> := *;
    garbage := left;
    board.d := SetSlot(Record(board.d, FlashBegun(a)), slot, if ok then [] else left);
    board.log := board.log + [board.d];
  }

  /** esp_ota_write: appends; a failure leaves anything in the slot. */
  method AppendSlot(board: Board, slot: nat, bytes: seq<byte>) returns (ok: bool, ghost garbage: seq<byte>)
    requires slot < |board.d.slots|
    modifies board
    ensures board.d == SetSlot(old(board.d), slot, if ok then old(board.d).slots[slot] + bytes else garbage)
    ensures board.sound ==> ok
    ensures board.log == old(board.log) + [board.d]
  {
    ok := board.Works();
    var left: seq<byte> := *;
    garbage := left;
    board.d := SetSlot(board.d, slot, if ok then board.d.slots[slot] + bytes else left);
    board.log := board.log + [board.d];
  }

  /** esp_ota_set_boot_partition: a failure has no effect. */
  method SelectSlot(board: Board, slot: nat, a: Attempt) returns (ok: bool)
    modifies board
    ensures board.d == if ok then Record(old(board.d).(boot := slot, image := Selected),
        BootSelected(a)) else old(board.d)
    ensures board.sound ==> ok
    ensures board.log == old(board.log) + [board.d]
  {
    ok := board.Works();
    if ok { board.d := Record(board.d.(boot := slot, image := Selected), BootSelected(a)); }
    board.log := board.log + [board.d];
  }

  /** esp_ota_mark_app_valid_cancel_rollback. */
  method MarkValid(board: Board, byPoll: bool) returns (ok: bool)
    modifies board
    ensures board.d == if ok then Record(old(board.d).(image := Confirmed), MarkedValid(byPoll)) else old(board.d)
    ensures board.sound ==> ok
    ensures board.log == old(board.log) + [board.d]
  {
    ok := board.Works();
    if ok { board.d := Record(board.d.(image := Confirmed), MarkedValid(byPoll)); }
    board.log := board.log + [board.d];
  }

  /** esp_ota_mark_app_invalid_rollback_and_reboot: when it works, the device resets instead of returning. */
  method MarkInvalidAndReboot(board: Board) returns (reset: bool)
    modifies board
    ensures board.d == if reset then OtaRuns.GivenUp(old(board.d)) else old(board.d)
    ensures board.sound ==> reset
    ensures board.log == old(board.log) + [board.d]
  {
    reset := board.Works();
    if reset { board.d := OtaRuns.GivenUp(board.d); }
    board.log := board.log + [board.d];
  }

  /** A blob write, its read-back and comparison; note is recorded when the write takes effect. */
  method CheckedWrite(board: Board, key: Key, data: seq<byte>, note: Option<Event>) returns (ok: bool,
      ghost env: WriteEnv)
    requires |data| > 0
    modifies board
    ensures env.Possible() && ok == env.confirmed && (board.sound ==> env == WriteEnv(true, true))
    ensures board.d == if env.effective then Noting(old(board.d), key, data, note) else old(board.d)
    ensures board.log == old(board.log) + [board.d]
  {
    var written := board.Works();
    var effective: bool := *;
    if written || effective { board.d := Noting(board.d, key, data, note); }
    board.log := board.log + [board.d];
    ok := false;
    if written {
      var back := board.Read(key, |data|);
      ok := back == Blob(data);
    }
    env := WriteEnv(written || effective, ok);
  }

  function Noting(d: Durable, key: Key, data: seq<byte>, note: Option<Event>): Durable {
    var written := d.(nvs := d.nvs[key := data]);
    match note case Some(e) => Record(written, e) case None => written
  }
}

/** The flash writer, the coordinator and the boot-time runtime, as objects over the board. */
module OtaDevice {
  import opened Bytes
  import opened Clock
  import opened Manifest
  import opened Hardware
  import opened OtaSpec
  import opened OtaRuns
  import OtaSafety
  import EspOta

  /** All durable states since before are listed. */
  predicate Within(log: seq<Durable>, before: seq<Durable>, d: Durable, cuts: seq<Durable>) {
    before <= log && forall i | |before| <= i < |log| :: log[i] == d || log[i] in cuts
  }

  /** An operation that keeps the invariant lists only safe states. */
  lemma LogStaysSafe(k: Kit, s: Device, r: (Device, seq<Durable>), before: seq<Durable>, log: seq<Durable>,
      cuts: seq<Durable>)
    requires Shaped(s) && Inv(k, s) && OtaSafety.Kept(k, s, r) && AllSafe(k, before) && Within(log, before, s.d, cuts)
    requires OtaSafety.OtaOnlyRun(s, r)
    requires forall d | d in cuts :: d in r.1 || d == r.0.d
    ensures AllSafe(k, log) && LogOtaOnly(before, log, s.d.nvs)
  {
    hide DurableInv, Inv, OtaSafety.SlotsKept, OtaOnly;
    OtaSafety.CutHere(k, s);
    NothingDiffers(s.d.nvs);
    forall i | 0 <= i < |log| ensures DurableInv(k, log[i]) {
      if i < |before| {
        assert log[i] == before[i];
      } else if log[i] != s.d {
        assert log[i] in cuts;
        assert OtaSafety.GoodCut(k, s, log[i]);
      }
    }
  }

  lemma NothingDiffers(nvs: Blobs)
    ensures OtaOnly(nvs, nvs)
  {
  }

  lemma AuthorizeNeeds(w: Writer, d: Durable, a: Attempt, e: StartEnv, f: StartEnv)
    requires ValidToken(a.transaction) && e.contextFault == f.contextFault && e.contextWrite == f.contextWrite
    ensures Authorize(w, d, a, e) == Authorize(w, d, a, f)
  {
    hide ReadContext, EncodeContext;
  }

  lemma WriteNeeds(w: Writer, d: Durable, running: nat, bytes: seq<byte>, e: ChunkEnv, f: ChunkEnv)
    requires running < 2 && |d.slots| == 2 && e.flash == f.flash
    ensures Write(w, d, running, bytes, e) == Write(w, d, running, bytes, f)
  {
  }

  method LoadContext(board: Board) returns (r: ContextRead, ghost fault: bool)
    ensures r == ReadContext(board.d.nvs, fault)
    ensures board.sound ==> !fault
  {
    hide DecodeContext;
    var read := board.Read(OtaContext, CONTEXT_BYTES);
    fault := read != StoredAt(board.d.nvs, OtaContext, CONTEXT_BYTES);
    match read
    case Missing => r := NoRecord;
    case ReadError => r := Invalid;
    case Blob(b) =>
      var c := DecodeContext(b);
      r := if c.Some? then Valid(c.value) else Invalid;
  }

  class EspWriter {
    const board: Board
    const running: nat
    const kit: Kit
    var authorized: Context
    var attemptVersion: u32
    var active: bool
    var hashing: bool
    var hashed: seq<byte>

    predicate Fits()
      reads board
    {
      |board.d.slots| == 2 && running < 2
    }

    function Value(): Writer
      reads this
    {
      Writer(authorized, attemptVersion, active, hashing, hashed)
    }

    constructor (board: Board, running: nat, kit: Kit)
      ensures this.board == board && this.running == running && this.kit == kit && Value() == NO_WRITER
    {
      this.board, this.running, this.kit := board, running, kit;
      authorized, attemptVersion, active, hashing, hashed := NO_CONTEXT, 0, false, false, [];
    }

    method AvailableFor(m: Manifest) returns (ok: bool, ghost fault: bool)
      modifies this
      ensures ok == Available(board.d.nvs, m, fault) && (board.sound ==> !fault)
      ensures Value() == Noted(old(Value()), board.d.nvs, fault)
    {
      hide ReadContext;
      var prior;
      prior, fault := LoadContext(board);
      if prior.Valid? { attemptVersion := prior.context.manifest.version; }
      ok := prior.NoRecord? || (prior.Valid? && m.version > prior.context.manifest.version);
    }

    method AuthorizeFor(a: Attempt) returns (ok: bool, ghost env: StartEnv)
      requires ValidToken(a.transaction)
      modifies this, board
      ensures env.contextWrite.Possible() && (board.sound ==> GoodStart(env))
      ensures board.d.slots == old(board.d.slots)
      ensures (Value(), board.d, ok) == Authorize(old(Value()), old(board.d), a, env)
      ensures Within(board.log, old(board.log), old(board.d), [board.d])
    {
      hide EncodeContext, ReadContext;
      env := WORKING_START;
      authorized := NO_CONTEXT;
      if a.origin == LegacyPush { return true, env; }
      var free;
      ghost var fault;
      free, fault := AvailableFor(a.manifest);
      env := env.(contextFault := fault);
      if !free { return false, env; }
      var c := Context(a.manifest, a.transaction, a.origin);
      ghost var write;
      ok, write := EspOta.CheckedWrite(board, OtaContext, EncodeContext(c), Some(ContextDurable(c)));
      env := env.(contextWrite := write);
      if ok { authorized, attemptVersion := c, a.manifest.version; }
    }

    method BeginImage(a: Attempt, ghost before: StartEnv) returns (ok: bool, ghost env: StartEnv)
      requires Fits()
      modifies this, board
      ensures Fits() && board.d.slots[running] == old(board.d.slots[running])
      ensures env.contextFault == before.contextFault && env.contextWrite == before.contextWrite
      ensures board.sound && GoodStart(before) ==> GoodStart(env)
      ensures (Value(), board.d, ok) == Begin(old(Value()), old(board.d), running, kit, a, env)
      ensures Within(board.log, old(board.log), old(board.d), [board.d])
    {
      var found := board.Works();
      env := before.(partitions := found);
      if !found || a.manifest.imageSize > kit.slotBytes { return false, env; }
      ghost var garbage;
      ok, garbage := EspOta.BeginSlot(board, OtaSpec.Other(running), a);
      env := env.(begins := ok, garbage := garbage);
      if !ok { return false, env; }
      active, hashing, hashed := true, true, [];
      ok := board.Works();
      env := env.(hashStarts := ok);
    }

    method WriteImage(bytes: seq<byte>) returns (ok: bool, ghost env: ChunkEnv)
      requires Fits()
      modifies this, board
      ensures Fits() && board.d.slots[running] == old(board.d.slots[running])
      ensures (Value(), board.d, ok) == Write(old(Value()), old(board.d), running, bytes, env)
      ensures env.journal == WriteEnv(true, true) && (board.sound ==> GoodChunk(env))
      ensures Within(board.log, old(board.log), old(board.d), [board.d])
    {
      env := WORKING_CHUNK;
      if !active { return false, env; }
      ghost var garbage;
      ok, garbage := EspOta.AppendSlot(board, OtaSpec.Other(running), bytes);
      if !ok { return false, env.(flash := Broken(garbage)); }
      ok := board.Works();
      if ok { hashed := hashed + bytes; } else { env := env.(flash := StoredUnhashed); }
    }

    method FinishImage(ghost before: ChunkEnv) returns (digest: Option<seq<byte>>, ghost env: ChunkEnv)
      modifies this
      ensures env == before.(ends := env.ends, hashes := env.hashes)
      ensures board.sound && GoodChunk(before) ==> GoodChunk(env)
      ensures (Value(), digest) == Finish(old(Value()), kit, env)
    {
      env := before;
      if !active { return None, env; }
      var hashes := board.Works();
      hashing := false;
      active := false;
      var ends := board.Works();
      env := env.(ends := ends, hashes := hashes);
      digest := if ends && hashes then Some(kit.sha(hashed)) else None;
    }

    method MaySelectNow(a: Attempt) returns (may: bool, ghost fault: bool)
      ensures forall env: ChunkEnv | env.contextFault == fault :: may == MaySelect(Value(), board.d, a, env)
      ensures board.sound ==> !fault
    {
      hide ReadContext, ContextMatches;
      fault := false;
      if authorized.origin == LegacyPush { return true, fault; }
      if !ContextMatches(authorized, a.manifest, a.transaction) { return false, fault; }
      var saved;
      saved, fault := LoadContext(board);
      may := saved.Valid? && ContextMatches(saved.context, a.manifest, a.transaction) &&
             saved.context.origin == authorized.origin;
    }

    method SelectImage(a: Attempt, ghost before: ChunkEnv) returns (ok: bool, ghost env: ChunkEnv)
      requires ValidToken(a.transaction) && before.journal.Possible()
      modifies board
      ensures env.journal.Possible() && env == before.(contextFault := env.contextFault, journal := env.journal,
          switches := env.switches)
      ensures board.sound && GoodChunk(before) ==> GoodChunk(env)
      ensures board.d.slots == old(board.d.slots)
      ensures (board.d, ok) == Select(Value(), old(board.d), running, a, env)
      ensures Within(board.log, old(board.log), old(board.d), [Journaled(Value(), old(board.d), a, env), board.d])
    {
      hide EncodeJournal, MaySelect;
      var may;
      ghost var fault;
      may, fault := MaySelectNow(a);
      env := before.(contextFault := fault);
      if !may { return false, env; }
      ghost var write;
      ok, write := EspOta.CheckedWrite(board, Ota, EncodeJournal(a.manifest, a.transaction), None);
      env := env.(journal := write);
      if !ok { return false, env; }
      ok := EspOta.SelectSlot(board, OtaSpec.Other(running), a);
      env := env.(switches := ok);
    }

    method ResetForBoot()
      modifies this
      ensures Value() == NO_WRITER
    {
      AbortImage();
      authorized, attemptVersion, hashed := NO_CONTEXT, 0, [];
    }

    method AbortImage()
      modifies this
      ensures Value() == Abort(old(Value()))
    {
      active, hashing := false, false;
    }
  }

  /** prepareAs, case by case. */
  lemma PrepareCases(k: Kit, t: Device, bytes: seq<byte>, token: seq<byte>, origin: Origin, now: u32, fault: bool)
    requires Shaped(t)
    ensures var r := PrepareTicked(k, t, bytes, token, origin, now, fault);
            var accepted := AcceptsTicked(k, t, bytes, token, origin, now, fault);
            var (why, m) := Examine(k, Id(k, t).version, bytes, origin);
            var noted := Noted(t.w, t.d.nvs, fault);
            if t.u.phase != Idle && t.u.phase != Failed then !accepted && r == t.(u := t.u.(reason := OtaBusy))
            else if !UsableKey(k.key) then !accepted && r == t.(u := Fail(t.u, KeyMissing))
            else if why != NoReason then !accepted && r == t.(u := Fail(t.u, why))
            else if !Available(t.d.nvs, m, fault) then !accepted &&
                r == t.(u := Fail(t.u, VersionQuarantined), w := noted)
            else if !ValidToken(token) then !accepted && r == t.(u := Fail(t.u, TokenInvalid), w := noted)
            else accepted && r == t.(u := OtaSpec.Updater(Prepared, NoReason, m, origin, token, now, now, 0),
                w := noted)
  {
    hide UsableKey, ValidToken, Examine, Available, Noted, Fail;
  }

  class Updater {
    const writer: EspWriter
    const version: u32
    var phase: Phase
    var reason: Reason
    var manifest: Manifest
    var origin: Origin
    var token: seq<byte>
    var started: u32
    var progress: u32
    var received: u32

    constructor (writer: EspWriter, version: u32)
      ensures this.writer == writer && this.version == version && Value() == IDLE
    {
      this.writer, this.version := writer, version;
      phase, reason, manifest, origin := Idle, NoReason, NO_MANIFEST, LegacyPush;
      token, started, progress, received := [], 0, 0, 0;
    }

    function Value(): OtaSpec.Updater
      reads this
    {
      OtaSpec.Updater(phase, reason, manifest, origin, token, started, progress, received)
    }

    /** The device around this coordinator; the boot-time runtime does not take part. */
    function Dev(): Device
      reads this, writer, writer.board
    {
      Device(writer.board.d, writer.running, Value(), writer.Value(), NO_RUNTIME, true)
    }

    /** version is the running image's, and a transfer in progress holds its token. */
    predicate Ready()
      reads this, writer, writer.board
    {
      && writer.Fits() && version == writer.kit.ident(writer.board.d.slots[writer.running]).version
      && (phase == Receiving ==> ValidToken(token))
    }

    method FailWith(why: Reason)
      modifies this, writer
      ensures Value() == Fail(old(Value()), why) && phase == Failed
      ensures writer.Value() == if old(phase) == Receiving then Abort(old(writer.Value())) else old(writer.Value())
    {
      if phase == Receiving { writer.AbortImage(); }
      phase, reason, token := Failed, why, [];
    }

    method TickAt(now: u32)
      requires Ready()
      modifies this, writer
      ensures Ready()
      ensures Dev() == Ticked(old(Dev()), now) && (phase == old(phase) || phase == Failed)
    {
      if phase == Prepared && Elapsed(now, started, PREPARE_MS) { FailWith(TokenExpired); }
      else if phase == Receiving && (Elapsed(now, started, TRANSFER_MS) ||
          Elapsed(now, progress, IDLE_MS)) { FailWith(UploadTimeout); }
    }

    method InterruptTransfer()
      requires Ready()
      modifies this, writer
      ensures Ready()
      ensures Dev() == Settle(old(Dev()), Interrupt(old(Value())))
    {
      if phase == Receiving { FailWith(UploadInterrupted); }
    }

    method ResetForBoot()
      requires Ready()
      modifies this, writer
      ensures Ready() && Value() == IDLE
    {
      InterruptTransfer();
      phase, reason, manifest, origin := Idle, NoReason, NO_MANIFEST, LegacyPush;
      started, progress, received, token := 0, 0, 0, [];
    }

    /** The envelope's checks, one by one. */
    method ExamineEnvelope(bytes: seq<byte>, from: Origin) returns (why: Reason, m: Manifest)
      ensures (why, m) == Examine(writer.kit, version, bytes, from)
    {
      hide DecodeManifest, DecodePackage, CStr;
      var n := if from == LegacyPush then MANIFEST_BYTES else PACKAGE_MANIFEST_BYTES;
      if |bytes| != n + ENVELOPE_SIGNATURE { return ManifestInvalid, NO_MANIFEST; }
      var candidate := if from == LegacyPush then DecodeManifest(bytes[..n]) else DecodePackage(bytes[..n]);
      if candidate.None? { return ManifestInvalid, NO_MANIFEST; }
      m := candidate.value;
      if !writer.kit.verify(bytes[n..], writer.kit.key, bytes[..n]) { return SignatureInvalid, m; }
      if from != LegacyPush && CStr(m.channel) != STABLE_TEXT { return ChannelRejected, m; }
      if m.minUpdater > UPDATER_PROTOCOL { return UpdaterMismatch, m; }
      if CStr(m.boardId) != BOARD { return BoardMismatch, m; }
      if m.minSchema > writer.kit.schema { return SchemaMismatch, m; }
      if m.version <= version { return DowngradeRejected, m; }
      why := NoReason;
    }

    method PrepareFrom(bytes: seq<byte>, newToken: seq<byte>, from: Origin, now: u32) returns (ok: bool,
        ghost fault: bool)
      requires Ready()
      modifies this, writer
      ensures Ready()
      ensures Dev() == PrepareRun(writer.kit, old(Dev()), bytes, newToken, from, now, fault)
      ensures ok == PrepareAccepts(writer.kit, old(Dev()), bytes, newToken, from, now, fault)
      ensures (ok ==> phase == Prepared) && (writer.board.sound ==> !fault)
    {
      hide PrepareTicked, AcceptsTicked, Ticked, ValidToken;
      TickAt(now);
      ok, fault := PrepareAfterTick(bytes, newToken, from, now);
    }

    method PrepareAfterTick(bytes: seq<byte>, newToken: seq<byte>, from: Origin, now: u32) returns (ok: bool,
        ghost fault: bool)
      requires Ready()
      modifies this, writer
      ensures Ready()
      ensures Dev() == PrepareTicked(writer.kit, old(Dev()), bytes, newToken, from, now, fault)
      ensures ok == AcceptsTicked(writer.kit, old(Dev()), bytes, newToken, from, now, fault)
      ensures (ok ==> phase == Prepared) && (writer.board.sound ==> !fault)
    {
      hide UsableKey, ValidToken, Examine, Available, ReadContext, OtaSpec.Fail, Noted, PrepareTicked, AcceptsTicked;
      ghost var t := Dev();
      PrepareCases(writer.kit, t, bytes, newToken, from, now, false);
      fault := false;
      if phase != Idle && phase != Failed { reason := OtaBusy; return false, fault; }
      if !UsableKey(writer.kit.key) { FailWith(KeyMissing); return false, fault; }
      var why, m := ExamineEnvelope(bytes, from);
      if why != NoReason { FailWith(why); return false, fault; }
      ok, fault := AdmitAttempt(bytes, m, newToken, from, now);
    }

    /** The rest of prepare for an examined manifest. */
    method AdmitAttempt(bytes: seq<byte>, m: Manifest, newToken: seq<byte>, from: Origin, now: u32)
      returns (ok: bool, ghost fault: bool)
      requires Ready() && (phase == Idle || phase == Failed) && UsableKey(writer.kit.key)
      requires Examine(writer.kit, version, bytes, from) == (NoReason, m)
      modifies this, writer
      ensures Ready()
      ensures Dev() == PrepareTicked(writer.kit, old(Dev()), bytes, newToken, from, now, fault)
      ensures ok == AcceptsTicked(writer.kit, old(Dev()), bytes, newToken, from, now, fault)
      ensures (ok ==> phase == Prepared) && (writer.board.sound ==> !fault)
    {
      hide UsableKey, ValidToken, Examine, Available, ReadContext, OtaSpec.Fail, Noted, PrepareTicked, AcceptsTicked,
           Abort;
      ghost var t := Dev();
      var free;
      free, fault := writer.AvailableFor(m);
      PrepareCases(writer.kit, t, bytes, newToken, from, now, fault);
      if !free { FailWith(VersionQuarantined); return false, fault; }
      if !ValidToken(newToken) { FailWith(TokenInvalid); return false, fault; }
      TakeAttempt(m, newToken, from, now);
      return true, fault;
    }

    method TakeAttempt(m: Manifest, newToken: seq<byte>, from: Origin, now: u32)
      modifies this
      ensures Value() == OtaSpec.Updater(Prepared, NoReason, m, from, newToken, now, now, 0)
    {
      manifest, origin, token := m, from, newToken;
      received, started, progress := 0, now, now;
      phase, reason := Prepared, NoReason;
    }

    method StartTransfer(given: seq<byte>, size: nat, now: u32) returns (ok: bool, ghost env: StartEnv,
        ghost cuts: seq<Durable>)
      requires Ready()
      modifies this, writer, writer.board
      ensures Ready() && env.contextWrite.Possible() && (writer.board.sound ==> GoodStart(env))
      ensures (Dev(), cuts) == StartRun(writer.kit, old(Dev()), given, size, now, env)
      ensures Within(writer.board.log, old(writer.board.log), old(writer.board.d), cuts)
      ensures ok <==> phase == Receiving && old(phase) == Prepared
      ensures writer.board.d.slots[writer.running] == old(writer.board.d.slots[writer.running])
    {
      hide ValidToken, OtaSpec.Begin, Authorize, Ticked, ReadContext;
      env := WORKING_START;
      cuts := [];
      TickAt(now);
      ghost var w, d := writer.Value(), writer.board.d;
      if phase != Prepared { reason := NotPrepared; return false, env, cuts; }
      if !ValidToken(given) || token != given { reason := TokenRejected; return false, env, cuts; }
      if size != manifest.imageSize { FailWith(ImageSizeMismatch); return false, env, cuts; }
      phase := Receiving;
      started, progress := now, now;
      var a := Attempt(manifest, token, origin);
      ok, env := writer.AuthorizeFor(a);
      cuts := [writer.board.d];
      if !ok { FailWith(OtaContextFailed); return false, env, cuts; }
      ghost var authorized, recorded := env, writer.board.d;
      ok, env := writer.BeginImage(a, env);
      AuthorizeNeeds(w, d, a, authorized, env);
      cuts := [recorded, writer.board.d];
      if !ok { FailWith(OtaBeginFailed); return false, env, cuts; }
      return true, env, cuts;
    }
  
    method CompleteImage(ghost before: ChunkEnv) returns (ok: bool, ghost env: ChunkEnv, ghost cuts: seq<Durable>)
      requires Ready() && phase == Receiving && before.journal.Possible()
      modifies this, writer, writer.board
      ensures Ready() && env.journal.Possible() && env.flash == before.flash
      ensures writer.board.sound && GoodChunk(before) ==> GoodChunk(env)
      ensures (Dev(), cuts) == CompleteRun(writer.kit, old(Dev()), env)
      ensures Within(writer.board.log, old(writer.board.log), old(writer.board.d), cuts)
      ensures (if ok then phase == RebootPending else phase == Failed)
      ensures |cuts| > 0 && cuts[0] == old(writer.board.d)
      ensures writer.board.d.slots[writer.running] == old(writer.board.d.slots[writer.running])
    {
      hide ValidToken, Select, Journaled;
      var digest;
      digest, env := writer.FinishImage(before);
      ok, cuts := false, [writer.board.d];
      if digest.None? { FailWith(ImageInvalid); return; }
      if digest.value != manifest.sha256 { FailWith(ImageHashMismatch); return; }
      var a := Attempt(manifest, token, origin);
      ok, env := writer.SelectImage(a, env);
      cuts := [old(writer.board.d), Journaled(writer.Value(), old(writer.board.d), a, env), writer.board.d];
      if !ok { FailWith(BootSelectFailed); return; }
      phase, reason := RebootPending, NoReason;
    }

    method ReceiveChunk(bytes: seq<byte>, now: u32) returns (ok: bool, ghost env: ChunkEnv, ghost cuts: seq<Durable>)
      requires Ready()
      modifies this, writer, writer.board
      ensures Ready() && env.journal.Possible() && (writer.board.sound ==> GoodChunk(env))
      ensures (Dev(), cuts) == ChunkRun(writer.kit, old(Dev()), bytes, now, env)
      ensures Within(writer.board.log, old(writer.board.log), old(writer.board.d), cuts)
      ensures ok <==> phase == Receiving || (old(phase) == Receiving && phase == RebootPending)
      ensures writer.board.d.slots[writer.running] == old(writer.board.d.slots[writer.running])
    {
      hide ValidToken, Write, CompleteRun, Ticked;
      env := WORKING_CHUNK;
      cuts := [];
      TickAt(now);
      ghost var w, d := writer.Value(), writer.board.d;
      if phase != Receiving { return false, env, cuts; }
      if |bytes| == 0 || |bytes| > CHUNK_MAX || received > manifest.imageSize ||
          |bytes| > manifest.imageSize - received {
        FailWith(ImageBounds);
        return false, env, cuts;
      }
      ok, env := writer.WriteImage(bytes);
      cuts := [writer.board.d];
      if !ok { FailWith(OtaWriteFailed); return false, env, cuts; }
      received, progress := received + |bytes|, now;
      if received != manifest.imageSize { return true, env, cuts; }
      ghost var wrote := env;
      ok, env, cuts := CompleteImage(env);
      WriteNeeds(w, d, writer.running, bytes, wrote, env);
    }
  }

  // The update operations do not look at the boot-time runtime.

  lemma PrepareApart(k: Kit, s: Device, rt: OtaSpec.Runtime, begun: bool, bytes: seq<byte>, token: seq<byte>,
      origin: Origin, now: u32, fault: bool)
    requires Shaped(s)
    ensures var t := s.(rt := rt, begun := begun);
            PrepareRun(k, t, bytes, token, origin, now, fault) == PrepareRun(k, s, bytes, token, origin, now,
                fault).(rt := rt, begun := begun) &&
            PrepareAccepts(k, t, bytes, token, origin, now, fault) == PrepareAccepts(k, s, bytes, token, origin, now,
                fault)
  {
    hide OtaSpec.Prepare, Examine, Available, Noted, Tick, UsableKey;
  }

  lemma StartApart(k: Kit, s: Device, rt: OtaSpec.Runtime, begun: bool, token: seq<byte>, size: nat, now: u32,
      env: StartEnv)
    requires Shaped(s)
    ensures var (r, cuts) := StartRun(k, s, token, size, now, env);
            StartRun(k, s.(rt := rt, begun := begun), token, size, now, env) == (r.(rt := rt, begun := begun), cuts)
  {
    hide Authorize, OtaSpec.Begin, Tick, ValidToken;
  }

  lemma ChunkApart(k: Kit, s: Device, rt: OtaSpec.Runtime, begun: bool, bytes: seq<byte>, now: u32, env: ChunkEnv)
    requires Proper(s)
    ensures var (r, cuts) := ChunkRun(k, s, bytes, now, env);
            ChunkRun(k, s.(rt := rt, begun := begun), bytes, now, env) == (r.(rt := rt, begun := begun), cuts)
  {
    hide Select, Journaled, Finish, Tick, ValidToken;
  }

  method LoadJournal(board: Board) returns (r: Option<Option<(Manifest, seq<byte>)>>, ghost fault: bool)
    ensures r == ReadJournal(board.d.nvs, fault)
    ensures board.sound ==> !fault
  {
    hide DecodeJournal;
    var read := board.Read(Ota, JOURNAL_BYTES);
    fault := read != StoredAt(board.d.nvs, Ota, JOURNAL_BYTES);
    match read
    case Missing => r := None;
    case ReadError => r := Some(None);
    case Blob(b) => r := Some(DecodeJournal(b));
  }

  class Runtime {
    const updater: Updater
    const writer: EspWriter
    const board: Board
    const identity: Identity
    var pending: bool
    var fatal: bool
    var contextError: bool
    var observing: bool
    var started: u32
    var healthyAt: u32
    var lastPoll: u32
    var attemptVersion: u32
    var origin: Origin
    var expected: Manifest
    var transaction: seq<byte>
    var state: BootState
    ghost var begun: bool

    constructor (updater: Updater, identity: Identity)
      ensures this.updater == updater && this.writer == updater.writer && this.board == updater.writer.board
      ensures this.identity == identity && Value() == NO_RUNTIME && !begun
    {
      this.updater, this.writer, this.board, this.identity := updater, updater.writer, updater.writer.board, identity;
      pending, fatal, contextError, observing := false, false, false, false;
      started, healthyAt, lastPoll, attemptVersion := 0, 0, 0, 0;
      origin, expected, transaction, state := LegacyPush, NO_MANIFEST, [], NotStarted;
      begun := false;
    }

    function Value(): OtaSpec.Runtime
      reads this
    {
      OtaSpec.Runtime(pending, fatal, contextError, observing, started, healthyAt, lastPoll, attemptVersion, origin,
                      expected, transaction, state)
    }

    ghost function Dev(): Device
      reads this, updater, writer, board
    {
      Device(board.d, writer.running, updater.Value(), writer.Value(), Value(), begun)
    }

    /** The parts are wired together, and identity is the running image's. */
    predicate Ready()
      reads this, updater, writer, board
    {
      && updater.writer == writer && writer.board == board && updater.Ready()
      && identity == writer.kit.ident(board.d.slots[writer.running])
    }

    /** arm, first thing after a reset. */
    method ArmAt(now: u32) returns (ghost env: ArmEnv)
      requires Ready()
      modifies this, updater, writer
      ensures Ready()
      ensures Dev() == Device(board.d, writer.running, IDLE, NO_WRITER, Arm(board.d.image, now, env), false)
      ensures board.sound ==> env == ArmEnv(true, true)
    {
      hide Arm;
      updater.ResetForBoot();
      writer.ResetForBoot();
      env := ArmRuntime(now);
    }

    method ArmRuntime(now: u32) returns (ghost env: ArmEnv)
      modifies this
      ensures Value() == Arm(board.d.image, now, env) && !begun && (board.sound ==> env == ArmEnv(true, true))
    {
      hide Zeros;
      ClearRuntime(now);
      var stateKnown := board.Works();
      var watchdog := board.Works();
      env := ArmEnv(stateKnown, watchdog);
      if !stateKnown {
        fatal, state := true, BootStateError;
        return;
      }
      pending := board.d.image == OnTrial;
      if !watchdog { fatal, state := true, WatchdogError; }
    }

    method ClearRuntime(now: u32)
      modifies this
      ensures !begun
      ensures Value() == OtaSpec.Runtime(false, false, false, false, now, now, now, 0, LegacyPush, NO_MANIFEST, [],
                                         UsbBaseline)
    {
      hide Zeros;
      begun := false;
      pending, fatal, contextError, observing := false, false, false, false;
      started, healthyAt, lastPoll, attemptVersion := now, now, now, 0;
      origin, expected, transaction, state := LegacyPush, NO_MANIFEST, [], UsbBaseline;
    }

    /** Gives the image up; true when the device resets. */
    method Rollback() returns (reset: bool)
      modifies this, board
      ensures Value() == RollbackReturned(old(Value())) && begun == old(begun)
      ensures board.d == if reset then GivenUp(old(board.d)) else old(board.d)
      ensures board.log == old(board.log) + [board.d] && (board.sound ==> reset)
    {
      pending, fatal, state := false, true, RollbackFailed;
      reset := EspOta.MarkInvalidAndReboot(board);
    }

    /** Reads the records of the last attempt. */
    method RecallAttempt() returns (found: bool, ghost env: BeginEnv)
      modifies this
      ensures Value() == Recall(old(Value()), board.d.nvs, writer.kit, identity, env) && begun == old(begun)
      ensures found == ReadJournal(board.d.nvs, env.journalFault).Some? && (board.sound ==> GoodBegin(env))
    {
      hide ReadContext, ReadJournal, ContextNoted, JournalTaken;
      var context;
      ghost var contextFault;
      context, contextFault := LoadContext(board);
      NoteContext(context);
      var journal;
      ghost var journalFault;
      journal, journalFault := LoadJournal(board);
      env := BeginEnv(contextFault, journalFault);
      found := journal.Some?;
      TakeJournal(context, journal);
    }

    method NoteContext(context: ContextRead)
      modifies this
      ensures Value() == ContextNoted(old(Value()), context) && begun == old(begun)
    {
      contextError := context.Invalid?;
      if context.Valid? { attemptVersion := context.context.manifest.version; }
    }

    method TakeJournal(context: ContextRead, journal: Option<Option<(Manifest, seq<byte>)>>)
      modifies this
      ensures Value() == JournalTaken(old(Value()), context, journal, writer.kit, identity) && begun == old(begun)
    {
      hide ContextMatches, Matches;
      if journal == Some(None) {
        fatal, state := true, JournalError;
      } else if journal.Some? {
        expected, transaction := journal.value.value.0, journal.value.value.1;
        state := if Matches(writer.kit, identity, expected) then ValidImage else RolledBackOrInterrupted;
        if context.Valid? && ContextMatches(context.context, expected, transaction) {
          origin := context.context.origin;
        }
      }
    }

    /** begin; true when the device resets. */
    method BeginBoot() returns (reset: bool, ghost env: BeginEnv, ghost mark: MarkEnv)
      requires Ready() && !begun
      modifies this, board
      ensures reset ==> board.d == GivenUp(old(board.d)) && old(pending) && mark.rollsBack
      ensures reset ==> |board.log| > |old(board.log)| && board.log[|board.log| - 1] == board.d
      ensures !reset ==> Ready() && Dev() == BeginRun(writer.kit, old(Dev()), env, mark).0
      ensures reset <==> mark.rollsBack && BeginRuntime(old(Value()), old(board.d.nvs), writer.kit, identity, env).1
      ensures board.sound ==> GoodBegin(env) && mark == MarkEnv(true, true)
      ensures Within(board.log, old(board.log), old(board.d), BeginRun(writer.kit, old(Dev()), env, mark).1)
    {
      hide Recall, ReadJournal, Matches, GivenUp;
      env, mark := BeginEnv(false, false), MarkEnv(true, true);
      begun := true;
      if fatal { return false, env, mark; }
      var found;
      found, env := RecallAttempt();
      RecallKeepsPending(old(Value()), board.d.nvs, writer.kit, identity, env);
      if pending {
        if fatal || contextError || !found || !Matches(writer.kit, identity, expected) {
          reset := Rollback();
          return reset, env, MarkEnv(true, reset);
        }
        state := PendingVerify;
      } else if contextError {
        state := ContextError;
      }
      return false, env, mark;
    }
  
    /** confirm: an acknowledgement repeated after the image is valid succeeds again. */
    method ConfirmWith(given: seq<byte>, healthy: bool, now: u32, byPoll: bool) returns (ok: bool, ghost mark: MarkEnv)
      requires Ready()
      modifies this, board
      ensures Ready()
      ensures var may := MayConfirm(old(Value()), writer.kit, identity, given, healthy, now);
              Dev() == (if may && mark.marks then MarkValid(old(Dev()), byPoll) else old(Dev())) &&
              ok == ((may && mark.marks) || Acknowledged(old(Value()), writer.kit, identity, given)) &&
              (ok ==> Value().state == ValidImage && !pending)
      ensures board.sound ==> mark == MarkEnv(true, true)
      ensures Within(board.log, old(board.log), old(board.d), [board.d])
    {
      hide Matches, ValidToken;
      mark := MarkEnv(true, true);
      if fatal || !ValidToken(given) || transaction != given ||
          !Matches(writer.kit, identity, expected) { return false, mark; }
      if !pending { return state == ValidImage, mark; }
      if !healthy || Elapsed(now, started, HEALTH_MS) { return false, mark; }
      if origin != LegacyPush &&
         (!observing || !Elapsed(now, healthyAt, LOCAL_HEALTH_MS) || Elapsed(now, lastPoll, HEALTH_POLL_MAX_MS)) {
        return false, mark;
      }
      ok := EspOta.MarkValid(board, byPoll);
      mark := MarkEnv(ok, true);
      if ok { pending, state := false, ValidImage; }
    }

    method ObserveAt(now: u32, healthy: bool)
      modifies this
      ensures Value() == Observe(old(Value()), now, healthy) && begun == old(begun)
    {
      if !healthy || Elapsed(now, lastPoll, HEALTH_POLL_MAX_MS) { observing := false; }
      lastPoll := now;
      if healthy && !observing { observing, healthyAt := true, now; }
    }

    /** poll; true when the device resets. */
    method PollAt(now: u32, healthy: bool) returns (reset: bool, ghost mark: MarkEnv)
      requires Ready()
      modifies this, updater, writer, board
      ensures reset ==> board.d == GivenUp(old(board.d)) && old(pending) && mark.rollsBack
      ensures reset ==> |board.log| > |old(board.log)| && board.log[|board.log| - 1] == board.d
      ensures !reset ==> Ready() && Dev() == PollRun(writer.kit, old(Dev()), now, healthy, mark).0
      ensures reset <==> mark.rollsBack && Poll(old(Value()), now, healthy).1 == OtaSpec.Rollback
      ensures board.sound ==> mark == MarkEnv(true, true)
      ensures Within(board.log, old(board.log), old(board.d), PollRun(writer.kit, old(Dev()), now, healthy, mark).1)
    {
      hide MayConfirm, Observe, GivenUp, Ticked;
      mark := MarkEnv(true, true);
      TickParts(now);
      if pending && (fatal || Elapsed(now, started, HEALTH_MS)) {
        reset := Rollback();
        return reset, MarkEnv(true, reset);
      }
      if !pending || origin == LegacyPush { return false, mark; }
      ObserveAt(now, healthy);
      if !healthy { return false, mark; }
      if Elapsed(now, healthyAt, LOCAL_HEALTH_MS) {
        var ok;
        ok, mark := ConfirmWith(transaction, true, now, true);
      }
      return false, mark;
    }

    method TickParts(now: u32)
      requires Ready()
      modifies updater, writer
      ensures Ready() && Dev() == Ticked(old(Dev()), now)
    {
      updater.TickAt(now);
    }

    // The coordinator's operations, seen with this runtime around them.

    method Prepare(bytes: seq<byte>, token: seq<byte>, from: Origin, now: u32) returns (ok: bool, ghost fault: bool)
      requires Ready()
      modifies updater, writer
      ensures Ready() && Dev() == PrepareRun(writer.kit, old(Dev()), bytes, token, from, now, fault)
      ensures ok == PrepareAccepts(writer.kit, old(Dev()), bytes, token, from, now, fault)
      ensures (ok ==> updater.phase == Prepared) && (board.sound ==> !fault)
    {
      hide PrepareRun, PrepareAccepts, ValidToken;
      ok, fault := updater.PrepareFrom(bytes, token, from, now);
      PrepareApart(writer.kit, old(updater.Dev()), Value(), begun, bytes, token, from, now, fault);
    }

    method Start(token: seq<byte>, size: nat, now: u32) returns (ok: bool, ghost env: StartEnv,
        ghost cuts: seq<Durable>)
      requires Ready()
      modifies updater, writer, board
      ensures Ready() && env.contextWrite.Possible() &&
          (Dev(), cuts) == StartRun(writer.kit, old(Dev()), token, size, now, env)
      ensures ok <==> updater.phase == Receiving && old(updater.phase) == Prepared
      ensures board.sound ==> GoodStart(env)
      ensures Within(board.log, old(board.log), old(board.d), cuts)
    {
      hide StartRun, ValidToken;
      ok, env, cuts := updater.StartTransfer(token, size, now);
      StartApart(writer.kit, old(updater.Dev()), Value(), begun, token, size, now, env);
    }

    method Chunk(bytes: seq<byte>, now: u32) returns (ok: bool, ghost env: ChunkEnv, ghost cuts: seq<Durable>)
      requires Ready()
      modifies updater, writer, board
      ensures Ready() && env.journal.Possible() && (Dev(), cuts) == ChunkRun(writer.kit, old(Dev()), bytes, now, env)
      ensures ok <==> updater.phase == Receiving || (old(updater.phase) == Receiving && updater.phase == RebootPending)
      ensures board.sound ==> GoodChunk(env)
      ensures Within(board.log, old(board.log), old(board.d), cuts)
    {
      hide ChunkRun, ValidToken;
      ok, env, cuts := updater.ReceiveChunk(bytes, now);
      ChunkApart(writer.kit, old(updater.Dev()), Value(), begun, bytes, now, env);
    }

    method Heartbeat() returns (ghost fault: bool)
      requires Ready()
      modifies this
      ensures Ready()
      ensures fault ==> Dev() == Exec(writer.kit, old(Dev()), DoWatchdogFault).0
      ensures !fault ==> Dev() == old(Dev())
      ensures board.sound ==> !fault
    {
      var reset := board.Works();
      fault := !reset;
      if !reset { fatal, state := true, WatchdogError; }
    }

    method MayUpdate() returns (ok: bool)
      ensures ok == CanUpdate(Value(), writer.kit)
    {
      ok := !pending && !fatal && !contextError && UsableKey(writer.kit.key);
    }
  }

  lemma RecallKeepsPending(rt: OtaSpec.Runtime, nvs: Blobs, k: Kit, id: Identity, env: BeginEnv)
    ensures Recall(rt, nvs, k, id, env).pending == rt.pending
  {
    hide ReadContext, ReadJournal, ContextMatches, Matches;
  }
}
