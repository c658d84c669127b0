/** The update coordinator, its flash writer and the boot-time runtime, as functions of the state, the arguments
    and what the hardware answered. */
module OtaSpec {
  import opened Bytes
  import opened Clock
  import opened Manifest
  import opened Hardware

  const ENVELOPE_SIGNATURE := 64
  const UPDATER_PROTOCOL: u32 := 2
  const PREPARE_MS: u32 := 30000
  const TRANSFER_MS: u32 := 120000
  const IDLE_MS: u32 := 8000
  const HEALTH_MS: u32 := 30000
  const LOCAL_HEALTH_MS: u32 := 5000
  const HEALTH_POLL_MAX_MS: u32 := 250
  const CHUNK_MAX := 1024

  /** Ed25519 and SHA-256 are any functions; ident is the release identity compiled into an image. */
  datatype Kit = Kit(verify: (seq<byte>, seq<byte>, seq<byte>) -> bool, sha: seq<byte> -> seq<byte>,
                     ident: seq<byte> -> Identity, key: seq<byte>, schema: u32, slotBytes: nat,
                     baseline: set<seq<byte>>)

  datatype Identity = Identity(version: u32, buildId: seq<byte>)

  // ---- Updater -----------------------------------------------------------------------------------

  datatype Phase = Idle | Prepared | Receiving | RebootPending | Failed

  datatype Reason =
    | NoReason | OtaBusy | KeyMissing | ManifestInvalid | SignatureInvalid | ChannelRejected | UpdaterMismatch
    | BoardMismatch | SchemaMismatch | DowngradeRejected | VersionQuarantined | TokenInvalid | TokenExpired
    | UploadTimeout | NotPrepared | TokenRejected | ImageSizeMismatch | OtaContextFailed | OtaBeginFailed
    | ImageBounds | OtaWriteFailed | ImageInvalid | ImageHashMismatch | BootSelectFailed | UploadInterrupted

  datatype Updater = Updater(phase: Phase, reason: Reason, manifest: Manifest, origin: Origin, token: seq<byte>,
                             started: u32, progress: u32, received: u32)

  const IDLE := Updater(Idle, NoReason, NO_MANIFEST, LegacyPush, [], 0, 0, 0)

  function Fail(u: Updater, reason: Reason): Updater {
    u.(phase := Failed, reason := reason, token := [])
  }

  function Tick(u: Updater, now: u32): Updater {
    if u.phase == Prepared && Elapsed(now, u.started, PREPARE_MS) then Fail(u, TokenExpired)
    else if u.phase == Receiving && (Elapsed(now, u.started, TRANSFER_MS) || Elapsed(now, u.progress, IDLE_MS))
    then Fail(u, UploadTimeout)
    else u
  }

  function Interrupt(u: Updater): Updater {
    if u.phase == Receiving then Fail(u, UploadInterrupted) else u
  }

  predicate UsableKey(key: seq<byte>) {
    exists i | 0 <= i < |key| :: key[i] != 0
  }

  function ManifestSize(origin: Origin): nat {
    if origin == LegacyPush then MANIFEST_BYTES else PACKAGE_MANIFEST_BYTES
  }

  function DecodeFor(origin: Origin, b: seq<byte>): Option<Manifest> {
    if origin == LegacyPush then DecodeManifest(b) else DecodePackage(b)
  }

  const STABLE_TEXT: seq<byte> := [0x73, 0x74, 0x61, 0x62, 0x6c, 0x65]

  /** The checks of prepareAs on the envelope, in order: the first that fails, or the manifest. */
  function Examine(k: Kit, version: u32, bytes: seq<byte>, origin: Origin): (Reason, Manifest) {
    var n := ManifestSize(origin);
    if |bytes| != n + ENVELOPE_SIGNATURE || DecodeFor(origin, bytes[..n]).None? then (ManifestInvalid, NO_MANIFEST)
    else
      var m := DecodeFor(origin, bytes[..n]).value;
      if !k.verify(bytes[n..], k.key, bytes[..n]) then (SignatureInvalid, m)
      else if origin != LegacyPush && CStr(m.channel) != STABLE_TEXT then (ChannelRejected, m)
      else if m.minUpdater > UPDATER_PROTOCOL then (UpdaterMismatch, m)
      else if CStr(m.boardId) != BOARD then (BoardMismatch, m)
      else if m.minSchema > k.schema then (SchemaMismatch, m)
      else if m.version <= version then (DowngradeRejected, m)
      else (NoReason, m)
  }

  /** prepareAs after its tick; available is the writer's answer. */
  function Prepare(u: Updater, k: Kit, version: u32, bytes: seq<byte>, token: seq<byte>, origin: Origin, now: u32,
                   available: bool): (Updater, bool)
  {
    if u.phase != Idle && u.phase != Failed then (u.(reason := OtaBusy), false)
    else if !UsableKey(k.key) then (Fail(u, KeyMissing), false)
    else
      var (reason, m) := Examine(k, version, bytes, origin);
      if reason != NoReason then (Fail(u, reason), false)
      else if !available then (Fail(u, VersionQuarantined), false)
      else if !ValidToken(token) then (Fail(u, TokenInvalid), false)
      else (Updater(Prepared, NoReason, m, origin, token, now, now, 0), true)
  }

  /** The part of start before the writer is asked: None if start goes on to it. */
  function StartRefused(u: Updater, token: seq<byte>, size: nat): Option<Updater> {
    if u.phase != Prepared then Some(u.(reason := NotPrepared))
    else if !ValidToken(token) || u.token != token then Some(u.(reason := TokenRejected))
    else if size != u.manifest.imageSize then Some(Fail(u, ImageSizeMismatch))
    else None
  }

  function Started(u: Updater, now: u32): Updater {
    u.(phase := Receiving, started := now, progress := now)
  }

  function Start(u: Updater, token: seq<byte>, size: nat, now: u32, authorized: bool, begun: bool): (Updater, bool) {
    match StartRefused(u, token, size)
    case Some(refused) => (refused, false)
    case None =>
      if !authorized then (Fail(Started(u, now), OtaContextFailed), false)
      else if !begun then (Fail(Started(u, now), OtaBeginFailed), false)
      else (Started(u, now), true)
  }

  predicate ChunkFits(u: Updater, size: nat) {
    0 < size <= CHUNK_MAX && u.received <= u.manifest.imageSize && size <= u.manifest.imageSize - u.received
  }

  function Progressed(u: Updater, size: nat, now: u32): Updater
    requires ChunkFits(u, size)
  {
    u.(received := u.received + size, progress := now)
  }

  // ---- Writer ------------------------------------------------------------------------------------

  datatype ContextRead = NoRecord | Valid(context: Context) | Invalid

  function ReadContext(nvs: Blobs, fault: bool): ContextRead {
    if fault then Invalid
    else
      match StoredAt(nvs, OtaContext, CONTEXT_BYTES)
      case Missing => NoRecord
      case ReadError => Invalid
      case Blob(b) =>
        match DecodeContext(b) case Some(c) => Valid(c) case None => Invalid
  }

  /** hashed is what the running SHA-256 has absorbed. */
  datatype Writer = Writer(authorized: Context, attemptVersion: u32, active: bool, hashing: bool, hashed: seq<byte>)

  const NO_WRITER := Writer(NO_CONTEXT, 0, false, false, [])

  function Abort(w: Writer): Writer {
    w.(active := false, hashing := false)
  }

  predicate Available(nvs: Blobs, m: Manifest, fault: bool) {
    match ReadContext(nvs, fault)
    case NoRecord => true
    case Valid(c) => m.version > c.manifest.version
    case Invalid => false
  }

  function Noted(w: Writer, nvs: Blobs, fault: bool): Writer {
    match ReadContext(nvs, fault)
    case Valid(c) => w.(attemptVersion := c.manifest.version)
    case _ => w
  }

  /** A checked write: whether it took effect, and whether write and read-back both reported success. */
  datatype WriteEnv = WriteEnv(effective: bool, confirmed: bool) {
    predicate Possible() {
      confirmed ==> effective
    }
  }

  datatype StartEnv = StartEnv(contextFault: bool, contextWrite: WriteEnv, partitions: bool, begins: bool,
                               garbage: seq<byte>, hashStarts: bool)

  /** Every call of start works. */
  predicate GoodStart(env: StartEnv) {
    !env.contextFault && env.contextWrite == WriteEnv(true, true) && env.partitions && env.begins && env.hashStarts
  }

  const WORKING_START := StartEnv(false, WriteEnv(true, true), true, true, [], true)

  function Other(slot: nat): nat {
    if slot == 0 then 1 else 0
  }

  function Record(d: Durable, e: Event): Durable {
    d.(history := d.history + [e])
  }

  /** authorize: a package attempt is recorded before flash is touched. */
  function Authorize(w: Writer, d: Durable, a: Attempt, env: StartEnv): (Writer, Durable, bool)
    requires ValidToken(a.transaction)
  {
    var cleared := w.(authorized := NO_CONTEXT);
    if a.origin == LegacyPush then (cleared, d, true)
    else
      var noted := Noted(cleared, d.nvs, env.contextFault);
      if !Available(d.nvs, a.manifest, env.contextFault) then (noted, d, false)
      else
        var c := Context(a.manifest, a.transaction, a.origin);
        var written := if env.contextWrite.effective
                       then Record(d.(nvs := d.nvs[OtaContext := EncodeContext(c)]), ContextDurable(c)) else d;
        if env.contextWrite.confirmed
        then (noted.(authorized := c, attemptVersion := a.manifest.version), written, true)
        else (noted, written, false)
  }

  function SetSlot(d: Durable, slot: nat, content: seq<byte>): Durable
    requires slot < |d.slots|
  {
    d.(slots := d.slots[slot := content])
  }

  /** begin: erases the slot that is not running. */
  function Begin(w: Writer, d: Durable, running: nat, k: Kit, a: Attempt, env: StartEnv): (Writer, Durable, bool)
    requires running < 2 && |d.slots| == 2
  {
    if !env.partitions || a.manifest.imageSize > k.slotBytes then (w, d, false)
    else
      var issued := Record(d, FlashBegun(a));
      if !env.begins then (w, SetSlot(issued, Other(running), env.garbage), false)
      else (w.(active := true, hashing := true, hashed := []), SetSlot(issued, Other(running), []), env.hashStarts)
  }

  datatype FlashWrite = Stored | StoredUnhashed | Broken(garbage: seq<byte>)

  datatype ChunkEnv = ChunkEnv(flash: FlashWrite, ends: bool, hashes: bool, contextFault: bool, journal: WriteEnv,
                               switches: bool)

  /** Every call of chunk works. */
  predicate GoodChunk(env: ChunkEnv) {
    env.flash == Stored && env.ends && env.hashes && !env.contextFault && env.journal == WriteEnv(true, true) &&
        env.switches
  }

  const WORKING_CHUNK := ChunkEnv(Stored, true, true, false, WriteEnv(true, true), true)

  function Write(w: Writer, d: Durable, running: nat, bytes: seq<byte>, env: ChunkEnv): (Writer, Durable, bool)
    requires running < 2 && |d.slots| == 2
  {
    if !w.active then (w, d, false)
    else
      var slot := Other(running);
      match env.flash
      case Broken(garbage) => (w, SetSlot(d, slot, garbage), false)
      case StoredUnhashed => (w, SetSlot(d, slot, d.slots[slot] + bytes), false)
      case Stored => (w.(hashed := w.hashed + bytes), SetSlot(d, slot, d.slots[slot] + bytes), true)
  }

  /** finish: the digest, if hashing and the image check both succeed. */
  function Finish(w: Writer, k: Kit, env: ChunkEnv): (Writer, Option<seq<byte>>) {
    if !w.active then (w, None)
    else (Abort(w), if env.ends && env.hashes then Some(k.sha(w.hashed)) else None)
  }

  predicate MaySelect(w: Writer, d: Durable, a: Attempt, env: ChunkEnv) {
    w.authorized.origin != LegacyPush ==>
      ContextMatches(w.authorized, a.manifest, a.transaction) &&
      match ReadContext(d.nvs, env.contextFault)
      case Valid(saved) => ContextMatches(saved, a.manifest, a.transaction) && saved.origin == w.authorized.origin
      case _ => false
  }

  function Journaled(w: Writer, d: Durable, a: Attempt, env: ChunkEnv): Durable
    requires ValidToken(a.transaction)
  {
    if MaySelect(w, d, a, env) && env.journal.effective
    then d.(nvs := d.nvs[Ota := EncodeJournal(a.manifest, a.transaction)]) else d
  }

  /** select: a checked journal precedes the switch of the boot pointer. */
  function Select(w: Writer, d: Durable, running: nat, a: Attempt, env: ChunkEnv): (Durable, bool)
    requires ValidToken(a.transaction)
  {
    var journaled := Journaled(w, d, a, env);
    if MaySelect(w, d, a, env) && env.journal.confirmed && env.switches
    then (Record(journaled.(boot := Other(running), image := Selected), BootSelected(a)), true)
    else (journaled, false)
  }

  // ---- Runtime -----------------------------------------------------------------------------------

  datatype BootState =
    | NotStarted | UsbBaseline | BootStateError | WatchdogError | JournalError | ValidImage | RolledBackOrInterrupted
    | PendingVerify | ContextError | RollbackFailed

  datatype Runtime = Runtime(pending: bool, fatal: bool, contextError: bool, observing: bool, started: u32,
                             healthyAt: u32, lastPoll: u32, attemptVersion: u32, origin: Origin, expected: Manifest,
                             transaction: seq<byte>, state: BootState)

  const NO_RUNTIME := Runtime(false, false, false, false, 0, 0, 0, 0, LegacyPush, NO_MANIFEST, [], NotStarted)

  datatype ArmEnv = ArmEnv(stateKnown: bool, watchdog: bool)

  function Arm(image: ImageState, now: u32, env: ArmEnv): Runtime {
    var rt := Runtime(false, false, false, false, now, now, now, 0, LegacyPush, NO_MANIFEST, [], UsbBaseline);
    if !env.stateKnown then rt.(fatal := true, state := BootStateError)
    else
      var known := rt.(pending := image == OnTrial);
      if env.watchdog then known else known.(fatal := true, state := WatchdogError)
  }

  predicate Matches(k: Kit, id: Identity, m: Manifest) {
    m.version == id.version && CStr(m.buildId) == id.buildId && CStr(m.boardId) == BOARD && m.minSchema <= k.schema
  }

  /** The journal as begin finds it; a fault or a malformed record is JournalError. */
  function ReadJournal(nvs: Blobs, fault: bool): Option<Option<(Manifest, seq<byte>)>> {
    if fault then Some(None)
    else
      match StoredAt(nvs, Ota, JOURNAL_BYTES)
      case Missing => None
      case ReadError => Some(None)
      case Blob(b) => Some(DecodeJournal(b))
  }

  datatype BeginEnv = BeginEnv(contextFault: bool, journalFault: bool)

  predicate GoodBegin(env: BeginEnv) {
    !env.contextFault && !env.journalFault
  }

  /** What begin takes from the context record. */
  function ContextNoted(rt: Runtime, read: ContextRead): Runtime {
    rt.(contextError := read.Invalid?,
        attemptVersion := if read.Valid? then read.context.manifest.version else rt.attemptVersion)
  }

  /** What it takes from the journal. */
  function JournalTaken(rt: Runtime, read: ContextRead, journal: Option<Option<(Manifest, seq<byte>)>>, k: Kit,
      id: Identity): Runtime {
    match journal
    case None => rt
    case Some(None) => rt.(fatal := true, state := JournalError)
    case Some(Some((m, t))) =>
      rt.(expected := m, transaction := t, state := if Matches(k, id, m) then ValidImage else RolledBackOrInterrupted,
          origin := if read.Valid? && ContextMatches(read.context, m, t) then read.context.origin else rt.origin)
  }

  /** begin without its rollback. */
  function Recall(rt: Runtime, nvs: Blobs, k: Kit, id: Identity, env: BeginEnv): Runtime {
    var read := ReadContext(nvs, env.contextFault);
    JournalTaken(ContextNoted(rt, read), read, ReadJournal(nvs, env.journalFault), k, id)
  }

  /** Whether begin gives an image on trial up. */
  predicate GivesUp(rt: Runtime, recalled: Runtime, nvs: Blobs, k: Kit, id: Identity, env: BeginEnv) {
    rt.pending &&
    (recalled.fatal || recalled.contextError || ReadJournal(nvs, env.journalFault).None? ||
        !Matches(k, id, recalled.expected))
  }

  /** rollback() when the call that should not return does. */
  function RollbackReturned(rt: Runtime): Runtime {
    rt.(pending := false, fatal := true, state := RollbackFailed)
  }

  /** begin; the second result asks for the rollback call. */
  function BeginRuntime(rt: Runtime, nvs: Blobs, k: Kit, id: Identity, env: BeginEnv): (Runtime, bool) {
    if rt.fatal then (rt, false)
    else
      var recalled := Recall(rt, nvs, k, id, env);
      if GivesUp(rt, recalled, nvs, k, id, env) then (RollbackReturned(recalled), true)
      else if rt.pending then (recalled.(state := PendingVerify), false)
      else if recalled.contextError then (recalled.(state := ContextError), false)
      else (recalled, false)
  }

  predicate CanUpdate(rt: Runtime, k: Kit) {
    !rt.pending && !rt.fatal && !rt.contextError && UsableKey(k.key)
  }

  /** confirm; marks says whether the mark-valid call was made and succeeded. */
  predicate MayConfirm(rt: Runtime, k: Kit, id: Identity, transaction: seq<byte>, healthy: bool, now: u32) {
    && !rt.fatal && ValidToken(transaction) && rt.transaction == transaction && Matches(k, id, rt.expected)
    && rt.pending && healthy && !Elapsed(now, rt.started, HEALTH_MS)
    && (rt.origin != LegacyPush ==>
          rt.observing && Elapsed(now, rt.healthyAt, LOCAL_HEALTH_MS) && !Elapsed(now, rt.lastPoll, HEALTH_POLL_MAX_MS))
  }

  /** A confirmation repeated after the image is valid. */
  predicate Acknowledged(rt: Runtime, k: Kit, id: Identity, transaction: seq<byte>) {
    && !rt.fatal && ValidToken(transaction) && rt.transaction == transaction && Matches(k, id, rt.expected)
    && !rt.pending && rt.state == ValidImage
  }

  function MarkedValidState(rt: Runtime): Runtime {
    rt.(pending := false, state := ValidImage)
  }

  /** The observation part of poll. */
  function Observe(rt: Runtime, now: u32, healthy: bool): Runtime {
    var gap := rt.(observing := rt.observing && healthy &&
        !Elapsed(now, rt.lastPoll, HEALTH_POLL_MAX_MS), lastPoll := now);
    if healthy && !gap.observing then gap.(observing := true, healthyAt := now) else gap
  }

  datatype PollResult = Nothing | Rollback | AskConfirm

  function Poll(rt: Runtime, now: u32, healthy: bool): (Runtime, PollResult) {
    if rt.pending && (rt.fatal || Elapsed(now, rt.started, HEALTH_MS)) then (RollbackReturned(rt), Rollback)
    else if !rt.pending || rt.origin == LegacyPush then (rt, Nothing)
    else
      var seen := Observe(rt, now, healthy);
      (seen, if healthy && Elapsed(now, seen.healthyAt, LOCAL_HEALTH_MS) then AskConfirm else Nothing)
  }
}
