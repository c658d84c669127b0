/** The device as a whole: every run of update operations, faults, power cuts and reboots. */
module OtaRuns {
  import opened Bytes
  import opened Manifest
  import opened Hardware
  import opened OtaSpec

  /** running is the slot this boot executes; begun says that the runtime has read its journal. */
  datatype Device = Device(d: Durable, running: nat, u: Updater, w: Writer, rt: Runtime, begun: bool)

  function Id(k: Kit, s: Device): Identity
    requires s.running < |s.d.slots|
  {
    k.ident(s.d.slots[s.running])
  }

  /** Failing while receiving aborts the writer. */
  function Settle(s: Device, u: Updater): Device {
    s.(u := u, w := if s.u.phase == Receiving && u.phase == Failed then Abort(s.w) else s.w)
  }

  function Ticked(s: Device, now: u32): Device {
    Settle(s, Tick(s.u, now))
  }

  predicate Shaped(s: Device) {
    |s.d.slots| == 2 && s.running < 2
  }

  /** What the type system of the firmware gives: two slots, and a token of 32 digits once one is accepted. */
  predicate Proper(s: Device) {
    Shaped(s) && (s.u.phase == Receiving ==> ValidToken(s.u.token))
  }

  /** prepare and preparePackage after their tick. */
  function PrepareTicked(k: Kit, t: Device, bytes: seq<byte>, token: seq<byte>, origin: Origin, now: u32,
      fault: bool): Device
    requires Shaped(t)
  {
    var (reason, m) := Examine(k, Id(k, t).version, bytes, origin);
    var asked := (t.u.phase == Idle || t.u.phase == Failed) && UsableKey(k.key) && reason == NoReason;
    var (u, ok) := OtaSpec.Prepare(t.u, k, Id(k, t).version, bytes, token, origin, now, asked &&
        Available(t.d.nvs, m, fault));
    t.(u := u, w := if asked then Noted(t.w, t.d.nvs, fault) else t.w)
  }

  function PrepareRun(k: Kit, s: Device, bytes: seq<byte>, token: seq<byte>, origin: Origin, now: u32,
      fault: bool): Device
    requires Shaped(s)
  {
    PrepareTicked(k, Ticked(s, now), bytes, token, origin, now, fault)
  }

  /** Whether prepare says yes. */
  predicate PrepareAccepts(k: Kit, s: Device, bytes: seq<byte>, token: seq<byte>, origin: Origin, now: u32, fault: bool)
    requires Shaped(s)
  {
    AcceptsTicked(k, Ticked(s, now), bytes, token, origin, now, fault)
  }

  predicate AcceptsTicked(k: Kit, t: Device, bytes: seq<byte>, token: seq<byte>, origin: Origin, now: u32, fault: bool)
    requires Shaped(t)
  {
    var m := Examine(k, Id(k, t).version, bytes, origin).1;
    OtaSpec.Prepare(t.u, k, Id(k, t).version, bytes, token, origin, now, Available(t.d.nvs, m, fault)).1
  }

  function AttemptOf(u: Updater): Attempt {
    Attempt(u.manifest, u.token, u.origin)
  }

  /** start: the state after it, and the durable states on the way. */
  function StartRun(k: Kit, s: Device, token: seq<byte>, size: nat, now: u32, env: StartEnv): (Device, seq<Durable>)
    requires Shaped(s)
  {
    var t := Ticked(s, now);
    match StartRefused(t.u, token, size)
    case Some(u) => (t.(u := u), [])
    case None =>
      var a := AttemptOf(t.u);
      var (w1, d1, authorized) := Authorize(t.w, t.d, a, env);
      if !authorized then (t.(u := OtaSpec.Start(t.u, token, size, now, false, false).0, w := Abort(w1), d := d1), [d1])
      else
        var (w2, d2, begun) := Begin(w1, d1, s.running, k, a, env);
        if !begun then (t.(u := OtaSpec.Start(t.u, token, size, now, true, false).0, w := Abort(w2), d := d2), [d1, d2])
        else (t.(u := OtaSpec.Start(t.u, token, size, now, true, true).0, w := w2, d := d2), [d1, d2])
  }

  /** The end of chunk: the image is complete, checked and selected. */
  function CompleteRun(k: Kit, s: Device, env: ChunkEnv): (Device, seq<Durable>)
    requires Shaped(s) && ValidToken(s.u.token)
  {
    var (w, digest) := Finish(s.w, k, env);
    var a := AttemptOf(s.u);
    if digest.None? then (s.(u := Fail(s.u, ImageInvalid), w := Abort(w)), [s.d])
    else if digest.value != s.u.manifest.sha256 then (s.(u := Fail(s.u, ImageHashMismatch), w := Abort(w)), [s.d])
    else
      var journaled := Journaled(w, s.d, a, env);
      var (d, selected) := Select(w, s.d, s.running, a, env);
      if !selected then (s.(u := Fail(s.u, BootSelectFailed), w := Abort(w), d := d), [s.d, journaled, d])
      else (s.(u := s.u.(phase := RebootPending, reason := NoReason), w := w, d := d), [s.d, journaled, d])
  }

  /** chunk, likewise. */
  function ChunkRun(k: Kit, s: Device, bytes: seq<byte>, now: u32, env: ChunkEnv): (Device, seq<Durable>)
    requires Proper(s)
  {
    var t := Ticked(s, now);
    if t.u.phase != Receiving then (t, [])
    else if !ChunkFits(t.u, |bytes|) then (Settle(t, Fail(t.u, ImageBounds)), [])
    else
      var (w, d, wrote) := Write(t.w, t.d, s.running, bytes, env);
      if !wrote then (Settle(t.(w := w, d := d), Fail(t.u, OtaWriteFailed)), [d])
      else
        var next := t.(u := Progressed(t.u, |bytes|, now), w := w, d := d);
        if next.u.received != next.u.manifest.imageSize then (next, [d]) else CompleteRun(k, next, env)
  }

  datatype MarkEnv = MarkEnv(marks: bool, rollsBack: bool)

  function MarkValid(s: Device, byPoll: bool): Device {
    s.(d := Record(s.d.(image := Confirmed), MarkedValid(byPoll)), rt := MarkedValidState(s.rt))
  }

  /** Marking the running image invalid and booting the other slot; done by the reset that follows. */
  function GivenUp(d: Durable): Durable {
    d.(boot := OtaSpec.Other(d.boot), image := Confirmed)
  }

  /** poll and confirm: the state after them and the durable states on the way. A rollback that works ends the boot;
      its durable state is the last of the list. */
  function PollRun(k: Kit, s: Device, now: u32, healthy: bool, env: MarkEnv): (Device, seq<Durable>)
    requires Shaped(s)
  {
    var t := Ticked(s, now);
    var (rt, result) := Poll(t.rt, now, healthy);
    var seen := t.(rt := rt);
    match result
    case Nothing => (seen, [])
    case Rollback => (seen, if env.rollsBack then [GivenUp(s.d)] else [])
    case AskConfirm =>
      if MayConfirm(rt, k, Id(k, s), rt.transaction, true, now) && env.marks
      then (MarkValid(seen, true), [MarkValid(seen, true).d]) else (seen, [])
  }

  function ConfirmRun(k: Kit, s: Device, transaction: seq<byte>, healthy: bool, now: u32, env: MarkEnv): (Device,
      seq<Durable>)
    requires Shaped(s)
  {
    if MayConfirm(s.rt, k, Id(k, s), transaction, healthy, now) && env.marks
    then (MarkValid(s, false), [MarkValid(s, false).d]) else (s, [])
  }

  function BeginRun(k: Kit, s: Device, env: BeginEnv, mark: MarkEnv): (Device, seq<Durable>)
    requires Shaped(s)
  {
    var (rt, rollback) := BeginRuntime(s.rt, s.d.nvs, k, Id(k, s), env);
    (s.(rt := rt, begun := true), if rollback && mark.rollsBack then [GivenUp(s.d)] else [])
  }

  /** The bootloader: a selected image goes on trial; an image still on trial at a reset loses to the other slot. */
  function Booted(d: Durable): (Durable, nat) {
    match d.image
    case Confirmed => (d, d.boot)
    case Selected => (d.(image := OnTrial), d.boot)
    case OnTrial => (GivenUp(d), OtaSpec.Other(d.boot))
  }

  function PowerOn(d: Durable, now: u32, env: ArmEnv): Device {
    var (booted, running) := Booted(d);
    Device(booted, running, IDLE, NO_WRITER, Arm(booted.image, now, env), false)
  }

  datatype Op =
    | DoPrepare(bytes: seq<byte>, token: seq<byte>, origin: Origin, now: u32, fault: bool)
    | DoStart(token: seq<byte>, size: nat, now: u32, start: StartEnv)
    | DoChunk(bytes: seq<byte>, now: u32, chunk: ChunkEnv)
    | DoTick(now: u32)
    | DoInterrupt
    | DoPoll(now: u32, healthy: bool, mark: MarkEnv)
    | DoConfirm(transaction: seq<byte>, healthy: bool, now: u32, mark: MarkEnv)
    | DoBegin(begin: BeginEnv, mark: MarkEnv)
    | DoWatchdogFault
    /** Anything else writes NVS, but not the two records of this protocol. */
    | DoOther(nvs: Blobs)

  predicate SameRecords(a: Blobs, b: Blobs) {
    forall key | key == Ota || key == OtaContext :: (key in a <==> key in b) && (key in a ==> a[key] == b[key])
  }

  predicate PossibleEnv(op: Op) {
    match op
    case DoStart(_, _, _, env) => env.contextWrite.Possible()
    case DoChunk(_, _, env) => env.journal.Possible()
    case _ => true
  }

  /** Updates are only offered after begin; start is called behind canUpdate. */
  predicate Enabled(k: Kit, s: Device, op: Op) {
    && PossibleEnv(op)
    && match op
       case DoPrepare(_, _, _, _, _) => s.begun
       case DoStart(_, _, _, _) => s.begun && CanUpdate(s.rt, k)
       case DoBegin(_, _) => !s.begun
       case DoOther(nvs) => SameRecords(nvs, s.d.nvs)
       case _ => true
  }

  function Exec(k: Kit, s: Device, op: Op): (Device, seq<Durable>)
    requires Proper(s)
  {
    match op
    case DoPrepare(bytes, token, origin, now, fault) => (PrepareRun(k, s, bytes, token, origin, now, fault), [])
    case DoStart(token, size, now, env) => StartRun(k, s, token, size, now, env)
    case DoChunk(bytes, now, env) => ChunkRun(k, s, bytes, now, env)
    case DoTick(now) => (Ticked(s, now), [])
    case DoInterrupt => (Settle(s, Interrupt(s.u)), [])
    case DoPoll(now, healthy, env) => PollRun(k, s, now, healthy, env)
    case DoConfirm(transaction, healthy, now, env) => ConfirmRun(k, s, transaction, healthy, now, env)
    case DoBegin(env, mark) => BeginRun(k, s, env, mark)
    case DoWatchdogFault => (s.(rt := s.rt.(fatal := true, state := WatchdogError)), [])
    case DoOther(nvs) => (s.(d := s.d.(nvs := nvs)), [s.d.(nvs := nvs)])
  }

  /** Operations run to their end, or power goes off at one of the durable states an operation passes through. */
  datatype Step =
    | Do(op: Op)
    | PowerCut(op: Op, at: nat, now: u32, arm: ArmEnv)

  predicate StepEnabled(k: Kit, s: Device, step: Step) {
    Enabled(k, s, step.op)
  }

  function Next(k: Kit, s: Device, step: Step): Device
    requires Proper(s)
  {
    var (after, cuts) := Exec(k, s, step.op);
    match step
    case Do(_) => after
    case PowerCut(_, at, now, arm) => PowerOn(if at < |cuts| then cuts[at] else s.d, now, arm)
  }

  // ---- What must hold of durable states ------------------------------------------------------------

  /** For this board ("m5stack-atom"), a schema this firmware knows, an updater no newer than protocol 2, and the stable
      channel if it is a package. */
  predicate Fits(k: Kit, m: Manifest, origin: Origin) {
    && CStr(m.boardId) == [0x6d, 0x35, 0x73, 0x74, 0x61, 0x63, 0x6b, 0x2d, 0x61, 0x74, 0x6f, 0x6d]
    && m.minSchema <= k.schema && m.minUpdater <= 2
    && (origin != LegacyPush ==> CStr(m.channel) == [0x73, 0x74, 0x61, 0x62, 0x6c, 0x65])
  }

  /** m came in an envelope that passed decoding and signature, and is meant for this firmware. */
  ghost predicate SignedManifest(k: Kit, m: Manifest, origin: Origin) {
    Fits(k, m, origin) && exists bytes: seq<byte> ::
      |bytes| == ManifestSize(origin) + ENVELOPE_SIGNATURE &&
      DecodeFor(origin, bytes[..ManifestSize(origin)]) == Some(m) &&
      k.verify(bytes[ManifestSize(origin)..], k.key, bytes[..ManifestSize(origin)])
  }

  /** The content is exactly the image of a signed manifest. */
  ghost predicate SignedImage(k: Kit, content: seq<byte>) {
    exists m: Manifest, origin: Origin ::
      SignedManifest(k, m, origin) && |content| == m.imageSize && k.sha(content) == m.sha256
  }

  ghost predicate Good(k: Kit, content: seq<byte>) {
    content in k.baseline || SignedImage(k, content)
  }

  /** Whatever the next resets do, they boot a good image. */
  ghost predicate BootSafe(k: Kit, d: Durable) {
    && |d.slots| == 2 && d.boot < 2
    && Good(k, d.slots[d.boot])
    && (d.image != Confirmed ==> Good(k, d.slots[OtaSpec.Other(d.boot)]))
  }

  function LastContext(h: seq<Event>): Option<Context> {
    if |h| == 0 then None
    else if h[|h| - 1].ContextDurable? then Some(h[|h| - 1].context)
    else LastContext(h[..|h| - 1])
  }

  function LastSelected(h: seq<Event>): Option<Attempt> {
    if |h| == 0 then None
    else if h[|h| - 1].BootSelected? then Some(h[|h| - 1].attempt)
    else LastSelected(h[..|h| - 1])
  }

  function AsStored(c: Context): Context {
    c.(manifest := c.manifest.Legacy())
  }

  /** The stored context is the last one made durable, and no earlier one has a higher version. */
  predicate ContextTracked(d: Durable) {
    match ReadContext(d.nvs, false)
    case Valid(c) =>
      LastContext(d.history).Some? && AsStored(LastContext(d.history).value) == c &&
      forall i | 0 <= i < |d.history| &&
          d.history[i].ContextDurable? :: d.history[i].context.manifest.version <= c.manifest.version
    case _ => forall i | 0 <= i < |d.history| :: !d.history[i].ContextDurable?
  }

  /** Package attempts that became durable have rising versions. */
  predicate AttemptsRise(h: seq<Event>) {
    forall i, j | 0 <= i < j < |h| && h[i].ContextDurable? && h[j].ContextDurable? ::
      h[i].context.manifest.version < h[j].context.manifest.version
  }

  predicate OwnBegin(c: Context, a: Attempt) {
    a == Attempt(c.manifest, c.transaction, c.origin)
  }

  /** Once a context is durable, no flash is begun for its version or a lower one, except by its own attempt
      right after it. */
  predicate Fence(h: seq<Event>) {
    forall i, j | 0 <= i < j < |h| && h[i].ContextDurable? && h[j].FlashBegun? ::
      h[j].attempt.manifest.version > h[i].context.manifest.version || (j == i + 1 &&
          OwnBegin(h[i].context, h[j].attempt))
  }

  /** Every flash begun for a package comes right after its own durable context. */
  predicate ContextFirst(h: seq<Event>) {
    forall j | 0 <= j < |h| && h[j].FlashBegun? && h[j].attempt.origin != LegacyPush ::
      j > 0 && h[j - 1].ContextDurable? && OwnBegin(h[j - 1].context, h[j].attempt)
  }

  /** No image selected by a legacy push is marked valid by poll. */
  predicate NoSelfConfirm(h: seq<Event>) {
    forall i | 0 <= i < |h| && h[i] == MarkedValid(true) ::
      LastSelected(h[..i]).Some? && LastSelected(h[..i]).value.origin != LegacyPush
  }

  /** The origin a boot reads from NVS. */
  function BootOrigin(nvs: Blobs): Origin {
    match (ReadJournal(nvs, false), ReadContext(nvs, false))
    case (Some(Some((m, t))), Valid(c)) => if ContextMatches(c, m, t) then c.origin else LegacyPush
    case _ => LegacyPush
  }

  /** A selected image left its journal, and the origin read back is the one it was selected under. */
  predicate SelectionKept(d: Durable) {
    d.image != Confirmed ==>
      var a := LastSelected(d.history);
      a.Some? && ReadJournal(d.nvs, false) == Some(Some((a.value.manifest.Legacy(), a.value.transaction))) &&
      BootOrigin(d.nvs) == a.value.origin
  }

  predicate HistoryOk(h: seq<Event>) {
    AttemptsRise(h) && Fence(h) && ContextFirst(h) && NoSelfConfirm(h)
  }

  /** Every attempt that was ever selected for boot came that way. */
  ghost predicate SelectedSigned(k: Kit, h: seq<Event>) {
    forall i | 0 <= i < |h| && h[i].BootSelected? :: SignedManifest(k, h[i].attempt.manifest, h[i].attempt.origin)
  }

  ghost predicate DurableInv(k: Kit, d: Durable) {
    BootSafe(k, d) && ContextTracked(d) && SelectionKept(d) && HistoryOk(d.history) && SelectedSigned(k, d.history)
  }

  // ---- What must hold of running devices -------------------------------------------------------------

  /** Higher than any version with a durable context. */
  predicate AboveFence(d: Durable, version: u32) {
    match ReadContext(d.nvs, false)
    case NoRecord => true
    case Valid(c) => version > c.manifest.version
    case Invalid => false
  }

  predicate OwnContext(d: Durable, u: Updater) {
    ReadContext(d.nvs, false) == Valid(AsStored(Context(u.manifest, u.token, u.origin)))
  }

  /** The attempt in hand against the durable context. */
  predicate Fenced(d: Durable, u: Updater) {
    match u.phase
    case Prepared => AboveFence(d, u.manifest.version)
    case Receiving => if u.origin == LegacyPush then AboveFence(d, u.manifest.version) else OwnContext(d, u)
    case _ => true
  }

  ghost predicate UpdaterInv(k: Kit, s: Device)
    requires Shaped(s)
  {
    && (s.u.phase == Prepared || s.u.phase == Receiving ==>
          SignedManifest(k, s.u.manifest, s.u.origin) && ValidToken(s.u.token) && s.u.manifest.Canonical())
    && (s.u.phase == Prepared ==> s.u.received == 0)
    && (s.u.phase == Receiving ==>
          && s.d.image == Confirmed && s.w.active
          && s.w.hashed == s.d.slots[OtaSpec.Other(s.running)]
          && |s.w.hashed| == s.u.received < s.u.manifest.imageSize
          && s.w.authorized == (if s.u.origin == LegacyPush then NO_CONTEXT else Context(s.u.manifest, s.u.token,
              s.u.origin)))
    && Fenced(s.d, s.u)
  }

  predicate BootInv(s: Device) {
    match s.d.image
    case Confirmed => s.d.boot == s.running && !s.rt.pending
    case OnTrial => s.d.boot == s.running && (s.rt.pending || s.rt.fatal) && s.u.phase != Receiving
    case Selected => s.d.boot == OtaSpec.Other(s.running) && s.u.phase == RebootPending && !s.rt.pending
  }

  predicate RuntimeInv(s: Device) {
    && (!s.begun ==> s.rt.origin == LegacyPush)
    && (s.begun && s.rt.pending && !s.rt.fatal ==>
          s.rt.origin == BootOrigin(s.d.nvs) &&
              ReadJournal(s.d.nvs, false) == Some(Some((s.rt.expected, s.rt.transaction))))
    && (!s.begun ==> s.rt.transaction == [])
  }

  ghost predicate Inv(k: Kit, s: Device) {
    Shaped(s) && DurableInv(k, s.d) && UpdaterInv(k, s) && BootInv(s) && RuntimeInv(s)
  }

  // ---- Runs ------------------------------------------------------------------------------------------

  /** A factory-fresh board: a baseline image, no update record. */
  predicate Factory(k: Kit, d: Durable) {
    && |d.slots| == 2 && d.boot < 2 && d.slots[d.boot] in k.baseline && d.image == Confirmed
    && d.history == [] && Ota !in d.nvs && OtaContext !in d.nvs
  }

  /** The states of a run, from power-on of a factory board; every step enabled. */
  ghost predicate Run(k: Kit, states: seq<Device>, steps: seq<Step>) {
    && |states| == |steps| + 1
    && (exists d: Durable, now: u32, env: ArmEnv :: Factory(k, d) && states[0] == PowerOn(d, now, env))
    && forall i | 0 <= i < |steps| ::
         Proper(states[i]) && StepEnabled(k, states[i], steps[i]) && states[i + 1] == Next(k, states[i], steps[i])
  }

  /** From s to t by these operations, each enabled where it runs, through exactly these durable states. */
  ghost predicate Performs(k: Kit, s: Device, ops: seq<Op>, cuts: seq<Durable>, t: Device)
    decreases |ops|
  {
    if |ops| == 0 then t == s && cuts == []
    else
      Proper(s) && Enabled(k, s, ops[0]) &&
      var (next, first) := Exec(k, s, ops[0]);
      first <= cuts && Performs(k, next, ops[1..], cuts[|first|..], t)
  }

  /** The last state of some run. */
  ghost predicate Reachable(k: Kit, s: Device) {
    exists states: seq<Device>, steps: seq<Step> :: Run(k, states, steps) && states[|states| - 1] == s
  }

  /** Every listed durable state is safe to cut power at. */
  ghost predicate AllSafe(k: Kit, log: seq<Durable>) {
    forall i | 0 <= i < |log| :: DurableInv(k, log[i])
  }

  /** Apart from the two update records nothing differs. */
  predicate OtaOnly(a: Blobs, b: Blobs) {
    forall key: Key | key != Ota && key != OtaContext :: (key in a <==> key in b) && (key in a ==> a[key] == b[key])
  }

  /** What was listed since before differs from nvs in the update records only. */
  ghost predicate LogOtaOnly(before: seq<Durable>, log: seq<Durable>, nvs: Blobs) {
    before <= log && forall i | |before| <= i < |log| :: OtaOnly(nvs, log[i].nvs)
  }
}
