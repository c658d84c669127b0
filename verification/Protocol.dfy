/** The release download: a worker task and the main loop, joined by bounded queues, as interleaved atomic steps. */
module Protocol {
  import opened Bytes
  import opened Manifest
  import opened Hardware
  import opened OtaSpec
  import opened OtaRuns
  import Chunked

  const HEADER_BYTES := 192
  const MESSAGE_CAPACITY := 2

  datatype Message =
    | Header(sequence: u32, version: u32, size: u32, bytes: seq<byte>)
    | Image(sequence: u32, bytes: seq<byte>)
    | Done

  datatype Ack = Ack(sequence: u32, accepted: bool)

  /** Where the worker task is: waiting for a request, checking the release, reading the body, waiting for an
      acknowledgement, or with its result not yet queued. */
  datatype Pc = Sleeping | Checking | Fetching | Awaiting | Finishing

  /** A download: the raw bytes read so far, the decoder over them, the payload it marked, how much of the payload
      was acknowledged and how much was put into messages. */
  datatype Job = Job(version: u32, size: u32, head: Chunked.Head, raw: seq<byte>, body: Chunked.State,
                     payload: seq<byte>, acked: nat, posted: nat)

  /** exchanges counts every exchange since boot; the sequence number on the wire is its low 32 bits. */
  datatype State = State(pc: Pc, job: Option<Job>, exchanges: nat, requests: nat, messages: seq<Message>,
                         acks: seq<Ack>, busy: bool, reboot: bool, dev: Device)

  function Wire(n: nat): u32 {
    n % 0x1_0000_0000
  }

  /** A new download: the response announces the release's size, or is chunked and announces none. */
  predicate Announces(head: Chunked.Head, size: u32) {
    (if head.hasLength then head.length == size else head.chunked && head.length == 0) && !(head.hasLength &&
        head.chunked)
  }

  function NewJob(version: u32, size: u32, head: Chunked.Head): Job {
    Job(version, size, head, [], Chunked.Start(head, size), [], 0, 0)
  }

  /** How many bytes the next message takes. */
  function Wanted(j: Job): nat {
    if j.acked == 0 then HEADER_BYTES
    else if j.size - j.acked < CHUNK_MAX && j.size >= j.acked then j.size - j.acked
    else CHUNK_MAX
  }

  /** The buffer is full, and before the last bytes leave the body is complete. */
  predicate Filled(j: Job) {
    |j.payload| == j.acked + Wanted(j) && (0 < j.acked && j.acked + Wanted(j) == j.size ==> j.body.done)
  }

  /** Bytes are read until the buffer is full; before the last message, until the body is complete. */
  predicate MayRead(j: Job) {
    !j.body.done && (|j.payload| < j.acked + Wanted(j) || (0 < j.acked && j.acked + Wanted(j) == j.size))
  }

  function Outgoing(j: Job, sequence: u32): Message
    requires j.acked <= |j.payload|
  {
    if j.acked == 0 then Header(sequence, j.version, j.size, j.payload) else Image(sequence, j.payload[j.acked..])
  }

  /** What the loop decides from clocks, health and randomness, and what the hardware answers. */
  datatype TakeEnv = TakeEnv(late: bool, jobOver: bool, healthy: bool, token: seq<byte>, now: u32, fault: bool,
                             start: StartEnv, chunk: ChunkEnv)
  {
    predicate Possible() {
      start.contextWrite.Possible() && chunk.journal.Possible()
    }

    predicate Works() {
      !fault && GoodStart(start) && GoodChunk(chunk)
    }
  }

  predicate GatesOpen(k: Kit, s: Device, env: TakeEnv) {
    !env.late && !env.jobOver && env.healthy && CanUpdate(s.rt, k)
  }

  /** The header branch: a decodable preview that names the announced release, then prepare and start. */
  function TakeHeader(k: Kit, s: Device, version: u32, size: u32, bytes: seq<byte>, env: TakeEnv): (Device, bool)
    requires Proper(s)
  {
    if |bytes| != HEADER_BYTES then (s, false)
    else
      match DecodePackage(bytes[..PACKAGE_MANIFEST_BYTES])
      case None => (s, false)
      case Some(preview) =>
        if preview.version != version || preview.imageSize + HEADER_BYTES != size then (s, false)
        else if !PrepareAccepts(k, s, bytes, env.token, GithubPull, env.now, env.fault)
        then (PrepareRun(k, s, bytes, env.token, GithubPull, env.now, env.fault), false)
        else
          var prepared := PrepareRun(k, s, bytes, env.token, GithubPull, env.now, env.fault);
          var started := StartRun(k, prepared, env.token, preview.imageSize, env.now, env.start).0;
          (started, started.u.phase == Receiving)
  }

  /** The image branch. */
  function TakeImage(k: Kit, s: Device, bytes: seq<byte>, env: TakeEnv): (Device, bool)
    requires Proper(s)
  {
    if s.u.origin != GithubPull then (s, false)
    else
      var next := ChunkRun(k, s, bytes, env.now, env.chunk).0;
      (next, next.u.phase == Receiving || (s.u.phase == Receiving && next.u.phase == RebootPending))
  }

  /** interrupt, if the last attempt came from here. */
  function InterruptOwn(s: Device): Device {
    if s.u.origin == GithubPull then Settle(s, Interrupt(s.u)) else s
  }

  function Handle(k: Kit, s: Device, m: Message, env: TakeEnv): (Device, bool)
    requires Proper(s)
  {
    if !GatesOpen(k, s, env) then (s, false)
    else
      match m
      case Header(_, version, size, bytes) => TakeHeader(k, s, version, size, bytes, env)
      case Image(_, bytes) => TakeImage(k, s, bytes, env)
      case Done => (s, false)
  }

  /** One message off the queue; a full acknowledgement queue drops the reply. */
  function Take(k: Kit, s: State, env: TakeEnv): State
    requires |s.messages| > 0 && Proper(s.dev)
  {
    var m, rest := s.messages[0], s.messages[1..];
    if m.Done? then
      var own := s.dev.u.origin == GithubPull && s.dev.u.phase == RebootPending;
      s.(messages := rest, busy := false, reboot := own, dev := if own then s.dev else InterruptOwn(s.dev))
    else
      var (dev, accepted) := Handle(k, s.dev, m, env);
      s.(messages := rest, dev := dev, acks := if |s.acks| == 0 then [Ack(m.sequence, accepted)] else s.acks)
  }

  datatype Step =
    // the worker task
    | TakeRequest
    | OpenBody(version: u32, size: u32, head: Chunked.Head)
    | ReadByte(b: byte)
    | Exchange(alive: bool)
    | ReceiveAck
    | GiveUp
    | PostDone
    // the main loop
    | StartJob(healthy: bool)
    | JobTimeout
    | TakeMessage(env: TakeEnv)
    | Loop(op: Op)

  /** HTTP starts and feeds transfers only while no job runs, and never prepares a GitHub transaction. */
  predicate LoopMay(s: State, op: Op) {
    match op
    case DoPrepare(_, _, origin, _, _) => origin != GithubPull
    case DoStart(_, _, _, _) => !s.busy
    case DoChunk(_, _, _) => !s.busy
    case DoInterrupt => !s.busy
    case _ => true
  }

  /** The acknowledgement left in the queue, if any, does not carry the number about to be used. It can only when it
      has stayed there while the 32-bit counter came round. */
  predicate FreshNumber(s: State) {
    |s.acks| > 0 ==> s.acks[0].sequence != Wire(s.exchanges + 1)
  }

  /** An exchange takes a fresh number; a job starts only after the runtime has begun. */
  predicate Enabled(k: Kit, s: State, step: Step) {
    match step
    case TakeRequest => s.pc == Sleeping && s.requests > 0
    case OpenBody(_, size, head) => s.pc == Checking && Announces(head, size)
    case ReadByte(_) => s.pc == Fetching && s.job.Some? && MayRead(s.job.value)
    case Exchange(_) => s.pc == Fetching && s.job.Some? && Filled(s.job.value) && FreshNumber(s)
    case ReceiveAck => s.pc == Awaiting && |s.acks| > 0 && s.job.Some?
    case GiveUp => s.pc == Checking || s.pc == Fetching || s.pc == Awaiting
    case PostDone => s.pc == Finishing && |s.messages| < MESSAGE_CAPACITY
    case StartJob(healthy) =>
      !s.busy && healthy && s.dev.begun && CanUpdate(s.dev.rt, k) && (s.dev.u.phase == Idle ||
          s.dev.u.phase == Failed) && !s.reboot
    case JobTimeout => s.busy
    case TakeMessage(env) => s.busy && |s.messages| > 0 && env.Possible()
    case Loop(op) => OtaRuns.Enabled(k, s.dev, op) && LoopMay(s, op)
  }

  /** A byte for the body: the buffer is full, or the body refuses it, or it is payload where only framing may
      follow, and the job is over; or the decoder moves on. */
  function Read(s: State, b: byte): State
    requires s.job.Some? && s.job.value.body.Shape()
  {
    var j := s.job.value;
    var (body, ok, payload) := Chunked.Feed(j.body, b);
    if !ok || (payload && |j.payload| >= j.acked + Wanted(j)) then s.(pc := Finishing)
    else s.(job := Some(j.(raw := j.raw + [b], body := body,
        payload := if payload then j.payload + [b] else j.payload)))
  }

  /** The first half of exchange: number the buffer and queue it. */
  function Post(s: State, alive: bool): State
    requires s.job.Some? && s.job.value.acked <= |s.job.value.payload|
  {
    var j := s.job.value;
    var counted := s.(exchanges := s.exchanges + 1);
    if !alive || |s.messages| >= MESSAGE_CAPACITY then counted.(pc := Finishing)
    else counted.(pc := Awaiting, job := Some(j.(posted := |j.payload|)),
                  messages := s.messages + [Outgoing(j, Wire(s.exchanges + 1))])
  }

  function ReadAck(s: State): State
    requires |s.acks| > 0 && s.job.Some?
  {
    var ack, rest := s.acks[0], s.(acks := s.acks[1..]);
    if ack.sequence != Wire(s.exchanges) then rest
    else if !ack.accepted then rest.(pc := Finishing)
    else
      var j := s.job.value.(acked := s.job.value.posted);
      rest.(job := Some(j), pc := if j.acked >= j.size then Finishing else Fetching)
  }

  predicate Sound(s: State) {
    Proper(s.dev) && (s.job.Some? ==> s.job.value.body.Shape() && s.job.value.acked <= |s.job.value.payload|)
  }

  function Next(k: Kit, s: State, step: Step): State
    requires Sound(s) && Enabled(k, s, step)
  {
    match step
    case TakeRequest => s.(pc := Checking, requests := s.requests - 1)
    case OpenBody(version, size, head) => s.(pc := Fetching, job := Some(NewJob(version, size, head)))
    case ReadByte(b) => Read(s, b)
    case Exchange(alive) => Post(s, alive)
    case ReceiveAck => ReadAck(s)
    case GiveUp => s.(pc := Finishing)
    case PostDone => s.(pc := Sleeping, messages := s.messages + [Done])
    case StartJob(_) => if s.requests == 0 then s.(requests := 1, busy := true) else s
    case JobTimeout => s.(dev := InterruptOwn(s.dev))
    case TakeMessage(env) => Take(k, s, env)
    case Loop(op) => s.(dev := Exec(k, s.dev, op).0)
  }

  // ---- The same steps as operations of the device ----------------------------------------------------------

  /** The update operations handling a message amounts to. */
  function HandleOps(k: Kit, s: Device, m: Message, env: TakeEnv): seq<Op>
    requires Proper(s)
  {
    if !GatesOpen(k, s, env) then []
    else
      match m
      case Header(_, version, size, bytes) => HeaderOps(k, s, version, size, bytes, env)
      case Image(_, bytes) => if s.u.origin != GithubPull then [] else [DoChunk(bytes, env.now, env.chunk)]
      case Done => []
  }

  function HeaderOps(k: Kit, s: Device, version: u32, size: u32, bytes: seq<byte>, env: TakeEnv): seq<Op>
    requires Proper(s)
  {
    if |bytes| != HEADER_BYTES then []
    else
      match DecodePackage(bytes[..PACKAGE_MANIFEST_BYTES])
      case None => []
      case Some(preview) =>
        var prepare := DoPrepare(bytes, env.token, GithubPull, env.now, env.fault);
        if preview.version != version || preview.imageSize + HEADER_BYTES != size then []
        else if !PrepareAccepts(k, s, bytes, env.token, GithubPull, env.now, env.fault) then [prepare]
        else [prepare, DoStart(env.token, preview.imageSize, env.now, env.start)]
  }

  /** The update operations of a step, in order. */
  function Ops(k: Kit, s: State, step: Step): seq<Op>
    requires Sound(s) && Enabled(k, s, step)
  {
    match step
    case JobTimeout => if s.dev.u.origin == GithubPull then [DoInterrupt] else []
    case TakeMessage(env) =>
      if s.messages[0].Done? then
        if s.dev.u.origin == GithubPull && s.dev.u.phase != RebootPending then [DoInterrupt] else []
      else HandleOps(k, s.dev, s.messages[0], env)
    case Loop(op) => [op]
    case _ => []
  }
}
