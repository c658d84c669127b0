/** The main loop's side of the download: the queues it shares with the worker, and the pull coordinator. */
module Pull {
  import opened Bytes
  import opened Clock
  import opened Manifest
  import opened Hardware
  import opened OtaSpec
  import opened OtaRuns
  import opened Protocol
  import OtaDevice
  import OtaSafety

  const JOB_MS: u32 := 180000
  const RETRY_MS: u32 := 60000

  /** The queues; the worker's own state is known only to specifications. */
  class Port {
    var requests: nat
    var messages: seq<Message>
    var acks: seq<Ack>
    var cancelled: bool
    ghost var pc: Pc
    ghost var job: Option<Job>
    ghost var exchanges: nat

    constructor ()
      ensures requests == 0 && messages == [] && acks == [] && !cancelled
      ensures pc == Sleeping && job == None && exchanges == 0
    {
      requests, messages, acks, cancelled := 0, [], [], false;
      pc, job, exchanges := Sleeping, None, 0;
    }

    method StartJob() returns (ok: bool)
      modifies this
      ensures ok <==> old(requests) == 0
      ensures requests == 1 || !ok
      ensures !ok ==> requests == old(requests)
      ensures messages == old(messages) && acks == old(acks) && pc == old(pc) && job == old(job) &&
          exchanges == old(exchanges)
    {
      cancelled := false;
      ok := requests == 0;
      if ok { requests := 1; }
    }

    method Reply(sequence: u32, accepted: bool)
      modifies this
      ensures acks == if |old(acks)| == 0 then [Protocol.Ack(sequence, accepted)] else old(acks)
      ensures messages == old(messages) && requests == old(requests) && pc == old(pc) && job == old(job) &&
          exchanges == old(exchanges)
    {
      if |acks| == 0 { acks := [Protocol.Ack(sequence, accepted)]; } else { cancelled := true; }
    }

    method Cancel()
      modifies this`cancelled
    {
      cancelled := true;
    }
  }

  /** Steps in order, each enabled where it is taken. */
  ghost predicate Follows(k: Kit, s: State, steps: seq<Protocol.Step>, t: State)
    decreases |steps|
  {
    if |steps| == 0 then t == s
    else Sound(s) && Protocol.Enabled(k, s, steps[0]) && Follows(k, Protocol.Next(k, s, steps[0]), steps[1..], t)
  }

  const NEVER: u32 := 0xffff_ffff

  /** What comes with a message: when the clock was sampled after it was taken, when it was created, and for a result
      whether the server limited the rate and the delay the worker computed. */
  datatype Arrival = Arrival(sampled: u32, created: u32, limited: bool, delay: u32)

  /** A poll of a running job: the job's limit of 180 s first, then one message if there is one, behind gates that are
      exactly its age of less than 8 s, the job's of less than 180 s, and health. */
  predicate Serves(steps: seq<Protocol.Step>, over: bool, messages: seq<Message>, jobOver: bool, healthy: bool,
                   token: seq<byte>, seen: Arrival, sound: bool)
  {
    && |steps| == (if over then 1 else 0) + (if |messages| > 0 then 1 else 0)
    && (over ==> steps[0] == JobTimeout)
    && (|messages| > 0 ==>
          var last := steps[|steps| - 1];
          last.TakeMessage? && (sound ==> last.env.Works()) &&
          (!messages[0].Done? ==>
             && last.env.late == Elapsed(seen.sampled, seen.created, 8000) && last.env.jobOver == jobOver
             && last.env.healthy == healthy && last.env.token == token && last.env.now == seen.sampled))
  }

  class Coordinator {
    const port: Port
    const runtime: OtaDevice.Runtime
    var automatic: bool
    var busy: bool
    var requested: bool
    var reboot: bool
    var startedOnce: bool
    var rateLimited: bool
    var started: u32
    var scheduledAt: u32
    var wait: u32

    constructor (port: Port, runtime: OtaDevice.Runtime, automatic: bool)
      ensures this.port == port && this.runtime == runtime && this.automatic == automatic
      ensures !busy && !requested && !reboot && !startedOnce && !rateLimited && wait == NEVER
    {
      this.port, this.runtime, this.automatic := port, runtime, automatic;
      busy, requested, reboot, startedOnce, rateLimited := false, false, false, false, false;
      started, scheduledAt, wait := 0, 0, NEVER;
    }

    /** Schedule::due. */
    predicate Due(now: u32)
      reads this
    {
      wait != NEVER && Elapsed(now, scheduledAt, wait)
    }

    /** begin: the first automatic check comes 30 to 60 s later. */
    method BeginSchedule(now: u32, random: u32)
      modifies this`scheduledAt, this`wait
      ensures scheduledAt == now && 30000 <= wait <= 60000
    {
      scheduledAt, wait := now, 30000 + random % 30001;
    }

    /** setAutomatic: touches neither a running job nor a back-off; switched on before any check, the first comes 30 to
        60 s later. */
    method SetAutomatic(enabled: bool, now: u32, random: u32)
      modifies this`automatic, this`scheduledAt, this`wait
      ensures automatic == enabled
      ensures if old(startedOnce) || old(automatic) || !enabled then scheduledAt == old(scheduledAt) && wait == old(wait)
              else scheduledAt == now && 30000 <= wait <= 60000
    {
      if enabled && !automatic && !startedOnce { BeginSchedule(now, random); }
      automatic := enabled;
    }

    ghost function View(): State
      reads this`busy, this`reboot, port, runtime, runtime.updater, runtime.writer, runtime.board
    {
      State(port.pc, port.job, port.exchanges, port.requests, port.messages, port.acks, busy, reboot, runtime.Dev())
    }

    predicate Ready()
      reads runtime, runtime.updater, runtime.writer, runtime.board
    {
      runtime.Ready()
    }

    /** Whether a request for a check is taken: no check is queued or running, the last one was started 60 s ago or
        never, and a rate limit has run out. */
    predicate Accepts(now: u32)
      reads this
    {
      && !busy && !requested && (startedOnce ==> Elapsed(now, started, 60000))
      && (rateLimited ==> wait != 0xffff_ffff && Elapsed(now, scheduledAt, wait))
    }

    /** request. */
    method Request(now: u32) returns (ok: bool)
      modifies this`requested
      ensures ok == old(Accepts(now)) && requested == (old(requested) || ok)
      ensures ok <==>
                && !old(busy) && !old(requested) && (startedOnce ==> Elapsed(now, started, 60000))
                && (rateLimited ==> wait != 0xffff_ffff && Elapsed(now, scheduledAt, wait))
    {
      if busy || requested || (startedOnce && !Elapsed(now, started, RETRY_MS)) || (rateLimited && !Due(now)) {
        return false;
      }
      requested := true;
      return true;
    }

    /** The header branch. */
    method TakeHeaderMessage(m: Message, token: seq<byte>, now: u32)
      returns (accepted: bool, ghost fault: bool, ghost env: StartEnv)
      requires Ready() && m.Header? && Safe() && CanUpdate(runtime.Value(), runtime.writer.kit)
      modifies runtime.updater, runtime.writer, runtime.board
      ensures Ready() && env.contextWrite.Possible() && AllSafe(runtime.writer.kit, runtime.board.log)
      ensures LogOtaOnly(old(runtime.board.log), runtime.board.log, old(runtime.board.d.nvs)) &&
              OtaOnly(old(runtime.board.d.nvs), runtime.board.d.nvs)
      ensures forall e: TakeEnv | e.token == token && e.now == now && e.fault == fault && e.start == env ::
                (runtime.Dev(), accepted) == TakeHeader(runtime.writer.kit, old(runtime.Dev()), m.version, m.size,
                    m.bytes, e)
      ensures runtime.board.sound ==> !fault && GoodStart(env)
    {
      hide DecodePackage, PrepareRun, StartRun, PrepareAccepts, ValidToken, CanUpdate, OtaRuns.Inv, AllSafe,
           OtaOnly;
      OtaDevice.NothingDiffers(runtime.board.d.nvs);
      fault, env := false, WORKING_START;
      if |m.bytes| != HEADER_BYTES { return false, fault, env; }
      var preview := DecodePackage(m.bytes[..PACKAGE_MANIFEST_BYTES]);
      if preview.None? || preview.value.version != m.version || preview.value.imageSize + HEADER_BYTES != m.size {
        return false, fault, env;
      }
      accepted, fault := runtime.Prepare(m.bytes, token, GithubPull, now);
      if !accepted { return false, fault, env; }
      PrepareIsSafe(runtime.writer.kit, old(runtime.Dev()), m.bytes, token, now, fault);
      accepted, env := StartSafely(token, preview.value.imageSize, now);
    }

    /** start, listing only safe durable states. */
    method StartSafely(token: seq<byte>, size: nat, now: u32) returns (ok: bool, ghost env: StartEnv)
      requires Ready() && Safe() && CanUpdate(runtime.Value(), runtime.writer.kit)
      modifies runtime.updater, runtime.writer, runtime.board
      ensures Ready() && env.contextWrite.Possible() && AllSafe(runtime.writer.kit, runtime.board.log)
      ensures LogOtaOnly(old(runtime.board.log), runtime.board.log, old(runtime.board.d.nvs)) &&
              OtaOnly(old(runtime.board.d.nvs), runtime.board.d.nvs)
      ensures runtime.Dev() == StartRun(runtime.writer.kit, old(runtime.Dev()), token, size, now, env).0
      ensures ok <==> runtime.updater.phase == Receiving && old(runtime.updater.phase) == Prepared
      ensures runtime.board.sound ==> GoodStart(env)
    {
      hide StartRun, ValidToken, CanUpdate, OtaRuns.Inv, AllSafe, OtaOnly;
      ghost var cuts;
      ok, env, cuts := runtime.Start(token, size, now);
      ghost var k, s := runtime.writer.kit, old(runtime.Dev());
      OtaSafety.StartKeeps(k, s, token, size, now, env);
      OtaSafety.StartTouchesOtaOnly(k, s, token, size, now, env);
      OtaDevice.LogStaysSafe(k, s, StartRun(k, s, token, size, now, env), old(runtime.board.log), runtime.board.log,
          cuts);
    }

    /** chunk, likewise. */
    method ChunkSafely(bytes: seq<byte>, now: u32) returns (ok: bool, ghost env: ChunkEnv)
      requires Ready() && Safe()
      modifies runtime.updater, runtime.writer, runtime.board
      ensures Ready() && env.journal.Possible() && AllSafe(runtime.writer.kit, runtime.board.log)
      ensures LogOtaOnly(old(runtime.board.log), runtime.board.log, old(runtime.board.d.nvs)) &&
              OtaOnly(old(runtime.board.d.nvs), runtime.board.d.nvs)
      ensures runtime.Dev() == ChunkRun(runtime.writer.kit, old(runtime.Dev()), bytes, now, env).0
      ensures ok <==> runtime.updater.phase == Receiving ||
                      (old(runtime.updater.phase) == Receiving && runtime.updater.phase == RebootPending)
      ensures runtime.board.sound ==> GoodChunk(env)
    {
      hide ChunkRun, ValidToken, OtaRuns.Inv, AllSafe, OtaOnly;
      ghost var cuts;
      ok, env, cuts := runtime.Chunk(bytes, now);
      ghost var k, s := runtime.writer.kit, old(runtime.Dev());
      OtaSafety.ChunkKeeps(k, s, bytes, now, env);
      OtaSafety.ChunkTouchesOtaOnly(k, s, bytes, now, env);
      OtaDevice.LogStaysSafe(k, s, ChunkRun(k, s, bytes, now, env), old(runtime.board.log), runtime.board.log, cuts);
    }

    /** The device's invariant, and only safe durable states so far. */
    ghost predicate Safe()
      reads runtime, runtime.updater, runtime.writer, runtime.board
    {
      OtaRuns.Inv(runtime.writer.kit, runtime.Dev()) && AllSafe(runtime.writer.kit, runtime.board.log)
    }

    /** interrupt, if the last attempt came from here. */
    method InterruptOwnTransfer()
      requires Ready()
      modifies runtime.updater, runtime.writer
      ensures Ready() && runtime.Dev() == InterruptOwn(old(runtime.Dev()))
    {
      if runtime.updater.origin == GithubPull { runtime.updater.InterruptTransfer(); }
    }
  
    /** One header or image message, behind the gates. */
    method HandleMessage(m: Message, late: bool, jobOver: bool, healthy: bool, token: seq<byte>, now: u32)
      returns (accepted: bool, ghost env: TakeEnv)
      requires Ready() && !m.Done? && Safe()
      modifies runtime.updater, runtime.writer, runtime.board
      ensures Ready() && env.Possible() && AllSafe(runtime.writer.kit, runtime.board.log)
      ensures LogOtaOnly(old(runtime.board.log), runtime.board.log, old(runtime.board.d.nvs)) &&
              OtaOnly(old(runtime.board.d.nvs), runtime.board.d.nvs)
      ensures env.late == late && env.jobOver == jobOver && env.healthy == healthy && env.token == token &&
              env.now == now && (runtime.board.sound ==> env.Works())
      ensures (runtime.Dev(), accepted) == Handle(runtime.writer.kit, old(runtime.Dev()), m, env)
    {
      hide TakeHeader, ChunkRun, CanUpdate, ValidToken, OtaRuns.Inv, AllSafe, OtaOnly;
      env := TakeEnv(late, jobOver, healthy, token, now, false, WORKING_START, WORKING_CHUNK);
      accepted := false;
      OtaDevice.NothingDiffers(runtime.board.d.nvs);
      var may := runtime.MayUpdate();
      if late || jobOver || !healthy || !may { return; }
      if m.Header? {
        ghost var fault, start;
        accepted, fault, start := TakeHeaderMessage(m, token, now);
        env := env.(fault := fault, start := start);
      } else if runtime.updater.origin == GithubPull {
        ghost var chunk;
        accepted, chunk := ChunkSafely(m.bytes, now);
        env := env.(chunk := chunk);
      }
    }

    /** The result of a job: reboot if its image is selected, leave no transfer of ours open, and schedule the next
        check after the delay the worker computed. */
    method HandleDone(now: u32, limited: bool, delay: u32)
      requires Ready()
      modifies this`busy, this`reboot, this`rateLimited, this`scheduledAt, this`wait, runtime.updater, runtime.writer
      ensures Ready() && !busy
      ensures scheduledAt == now && wait == delay && rateLimited == (limited && !reboot)
      ensures reboot == (old(runtime.updater.origin) == GithubPull && old(runtime.updater.phase) == RebootPending)
      ensures runtime.Dev() == if reboot then old(runtime.Dev()) else InterruptOwn(old(runtime.Dev()))
    {
      busy := false;
      reboot := runtime.updater.origin == GithubPull && runtime.updater.phase == RebootPending;
      if !reboot { InterruptOwnTransfer(); }
      rateLimited := limited && !reboot;
      scheduledAt, wait := now, delay;
    }

    /** The job's time limit. */
    method LimitJob(now: u32) returns (over: bool)
      requires Ready() && busy
      modifies port`cancelled, runtime.updater, runtime.writer
      ensures Ready() && over == Elapsed(now, started, JOB_MS)
      ensures View() == if over then old(View()).(dev := InterruptOwn(old(runtime.Dev()))) else old(View())
    {
      over := Elapsed(now, started, JOB_MS);
      if over {
        port.Cancel();
        InterruptOwnTransfer();
      }
    }

    /** At most one message; the clock is sampled again after the dequeue. */
    method ServeMessage(seen: Arrival, healthy: bool, token: seq<byte>) returns (ghost env: TakeEnv)
      requires Ready() && busy && |port.messages| > 0 && Safe()
      modifies this, port, runtime.updater, runtime.writer, runtime.board
      ensures Ready() && env.Possible() && (runtime.board.sound ==> env.Works())
      ensures requested == old(requested) && automatic == old(automatic)
      ensures AllSafe(runtime.writer.kit, runtime.board.log)
      ensures LogOtaOnly(old(runtime.board.log), runtime.board.log, old(runtime.board.d.nvs)) &&
              OtaOnly(old(runtime.board.d.nvs), runtime.board.d.nvs)
      ensures View() == Take(runtime.writer.kit, old(View()), env)
      ensures !old(port.messages)[0].Done? ==>
                env.late == Elapsed(seen.sampled, seen.created, 8000) &&
                env.jobOver == Elapsed(seen.sampled, old(started), 180000) &&
                env.healthy == healthy && env.token == token && env.now == seen.sampled
      ensures old(port.messages)[0].Done? ==> scheduledAt == seen.sampled && wait == seen.delay
    {
      hide Handle, InterruptOwn, ValidToken, CanUpdate, OtaRuns.Inv, AllSafe, OtaOnly;
      OtaDevice.NothingDiffers(runtime.board.d.nvs);
      var m := port.messages[0];
      port.messages := port.messages[1..];
      if m.Done? {
        HandleDone(seen.sampled, seen.limited, seen.delay);
        env := TakeEnv(false, false, false, token, seen.sampled, false, WORKING_START, WORKING_CHUNK);
        return;
      }
      var late, over := Elapsed(seen.sampled, seen.created, IDLE_MS), Elapsed(seen.sampled, started, JOB_MS);
      var accepted;
      accepted, env := HandleMessage(m, late, over, healthy, token, seen.sampled);
      port.Reply(m.sequence, accepted);
    }

    /** poll while a job runs. */
    method ServeJob(now: u32, healthy: bool, token: seq<byte>, seen: Arrival) returns (ghost steps: seq<Protocol.Step>)
      requires Ready() && Sound(View()) && busy && Safe()
      modifies this, port, runtime.updater, runtime.writer, runtime.board
      ensures Ready() && Follows(runtime.writer.kit, old(View()), steps, View())
      ensures requested == old(requested) && automatic == old(automatic)
      ensures AllSafe(runtime.writer.kit, runtime.board.log) && PollSteps(steps)
      ensures LogOtaOnly(old(runtime.board.log), runtime.board.log, old(runtime.board.d.nvs)) &&
              OtaOnly(old(runtime.board.d.nvs), runtime.board.d.nvs)
      ensures Serves(steps, Elapsed(now, old(started), 180000), old(port.messages),
                     Elapsed(seen.sampled, old(started), 180000),
                     healthy, token, seen, runtime.board.sound)
    {
      hide InterruptOwn, Take, Follows, ValidToken, Protocol.Next, Protocol.Enabled, OtaRuns.Inv, AllSafe, OtaOnly,
           Elapsed;
      OtaDevice.NothingDiffers(runtime.board.d.nvs);
      ghost var k, first := runtime.writer.kit, View();
      var over := LimitJob(now);
      ghost var second := View();
      TimeoutTaken(k, first, over, second);
      InterruptIsSafe(k, first.dev);
      if |port.messages| == 0 { return if over then [JobTimeout] else []; }
      ghost var env := ServeMessage(seen, healthy, token);
      MessageTaken(k, first, over, second, env, View());
      return if over then [JobTimeout, TakeMessage(env)] else [TakeMessage(env)];
    }

    /** Whether a poll without a job starts one: on a healthy device that may update and is idle, for a request or the
        schedule. */
    predicate MayStart(now: u32, healthy: bool)
      reads this, runtime, runtime.updater
    {
      && healthy && CanUpdate(runtime.Value(), runtime.writer.kit) && !reboot
      && (runtime.updater.phase == Idle || runtime.updater.phase == Failed)
      && (requested || (automatic && wait != 0xffff_ffff && Elapsed(now, scheduledAt, wait)))
    }

    /** poll while none does. */
    method MaybeStart(now: u32, healthy: bool) returns (ghost steps: seq<Protocol.Step>)
      requires Ready() && Sound(View()) && !busy && (healthy ==> runtime.begun)
      modifies this, port
      ensures Ready() && Follows(runtime.writer.kit, old(View()), steps, View())
      ensures reboot == old(reboot) && automatic == old(automatic)
      ensures steps == if old(MayStart(now, healthy)) then [StartJob(true)] else []
      ensures if old(MayStart(now, healthy)) then !requested && started == now && startedOnce
              else requested == old(requested)
    {
      hide CanUpdate, Sound, OtaDevice.Runtime.Ready, Follows, Elapsed, Protocol.Next, Protocol.Enabled;
      ghost var k, first := runtime.writer.kit, View();
      NoSteps(k, first);
      steps := [];
      var phase := runtime.updater.phase;
      var may := runtime.MayUpdate();
      if !healthy || !may || (phase != Idle && phase != Failed) || reboot { return; }
      if !requested && (!automatic || !Due(now)) { return; }
      requested, started, startedOnce := false, now, true;
      QueueJob(now);
      StartTaken(k, first, View());
      steps := [StartJob(true)];
    }

    /** The request goes to the worker, or is put off for 60 s. */
    method QueueJob(now: u32)
      requires !busy
      modifies this`busy, this`scheduledAt, this`wait, port
      ensures View() == if old(port.requests) == 0 then old(View()).(requests := 1, busy := true) else old(View())
      ensures if busy then scheduledAt == old(scheduledAt) && wait == old(wait) else scheduledAt == now && wait == 60000
    {
      var ok := port.StartJob();
      if ok { busy := true; } else { scheduledAt, wait := now, RETRY_MS; }
    }

    method PollAt(now: u32, healthy: bool, token: seq<byte>, seen: Arrival) returns (ghost steps: seq<Protocol.Step>)
      requires Ready() && Sound(View()) && (healthy ==> runtime.begun) && Safe()
      modifies this, port, runtime.updater, runtime.writer, runtime.board
      ensures Ready() && Follows(runtime.writer.kit, old(View()), steps, View()) && PollSteps(steps)
      ensures (requested ==> old(requested)) && automatic == old(automatic)
      ensures AllSafe(runtime.writer.kit, runtime.board.log)
      ensures LogOtaOnly(old(runtime.board.log), runtime.board.log, old(runtime.board.d.nvs)) &&
              OtaOnly(old(runtime.board.d.nvs), runtime.board.d.nvs)
      ensures if old(busy)
              then Serves(steps, Elapsed(now, old(started), 180000), old(port.messages),
                          Elapsed(seen.sampled, old(started), 180000), healthy, token, seen,
                          runtime.board.sound)
              else steps == if old(MayStart(now, healthy)) then [StartJob(true)] else []
    {
      hide Follows, Sound, ValidToken, OtaRuns.Inv, AllSafe, OtaOnly, Serves, Coordinator.MayStart;
      OtaDevice.NothingDiffers(runtime.board.d.nvs);
      if busy { steps := ServeJob(now, healthy, token, seen); } else { steps := MaybeStart(now, healthy); }
    }
  }

  predicate PollSteps(steps: seq<Protocol.Step>) {
    forall i | 0 <= i < |steps| :: steps[i].StartJob? || steps[i].JobTimeout? || steps[i].TakeMessage?
  }

  lemma PrepareIsSafe(k: Kit, s: Device, bytes: seq<byte>, token: seq<byte>, now: u32, fault: bool)
    requires OtaRuns.Inv(k, s)
    ensures var r := PrepareRun(k, s, bytes, token, GithubPull, now, fault);
            OtaRuns.Inv(k, r) && r.d == s.d && r.rt == s.rt
  {
    hide DurableInv, UpdaterInv, BootInv, RuntimeInv, PrepareTicked;
    OtaSafety.PrepareKeeps(k, s, bytes, token, GithubPull, now, fault);
    PrepareIsLocal(k, s, bytes, token, now, fault);
  }

  lemma PrepareIsLocal(k: Kit, s: Device, bytes: seq<byte>, token: seq<byte>, now: u32, fault: bool)
    requires Shaped(s)
    ensures var r := PrepareRun(k, s, bytes, token, GithubPull, now, fault); r.d == s.d && r.rt == s.rt
  {
    hide Examine, Available, Noted, OtaSpec.Prepare;
  }

  lemma InterruptIsSafe(k: Kit, s: Device)
    requires OtaRuns.Inv(k, s)
    ensures OtaRuns.Inv(k, InterruptOwn(s)) && InterruptOwn(s).d == s.d
  {
    hide DurableInv, SignedManifest, ReadContext, BootOrigin, ReadJournal;
  }

  /** The job's limit as a step. */
  lemma TimeoutTaken(k: Kit, s: State, over: bool, t: State)
    requires Sound(s) && s.busy && t == if over then s.(dev := InterruptOwn(s.dev)) else s
    ensures Follows(k, s, if over then [JobTimeout] else [], t)
  {
    hide InterruptOwn;
    if over { StepTaken(k, s, JobTimeout, t); }
  }

  /** A message as the next step. */
  lemma MessageTaken(k: Kit, s: State, over: bool, t: State, env: TakeEnv, u: State)
    requires Sound(s) && s.busy && t == if over then s.(dev := InterruptOwn(s.dev)) else s
    requires Proper(t.dev) && |t.messages| > 0 && env.Possible() && u == Take(k, t, env)
    ensures Follows(k, s, if over then [JobTimeout, TakeMessage(env)] else [TakeMessage(env)], u)
  {
    hide InterruptOwn, Take;
    StepTaken(k, t, TakeMessage(env), u);
    if over {
      StepBefore(k, s, JobTimeout, t, [TakeMessage(env)], u);
      assert [JobTimeout, TakeMessage(env)] == [JobTimeout] + [TakeMessage(env)];
    }
  }

  lemma NoSteps(k: Kit, s: State)
    ensures Follows(k, s, [], s)
  {
  }

  /** The start of a job as a step. */
  lemma StartTaken(k: Kit, s: State, t: State)
    requires Sound(s) && !s.busy && s.dev.begun && CanUpdate(s.dev.rt, k) && (s.dev.u.phase == Idle ||
             s.dev.u.phase == Failed)
    requires !s.reboot && t == if s.requests == 0 then s.(requests := 1, busy := true) else s
    ensures Follows(k, s, [StartJob(true)], t)
  {
    hide Sound, CanUpdate;
    StepTaken(k, s, StartJob(true), t);
  }

  lemma StepTaken(k: Kit, s: State, step: Protocol.Step, t: State)
    requires Sound(s) && Protocol.Enabled(k, s, step) && t == Protocol.Next(k, s, step)
    ensures Follows(k, s, [step], t)
  {
    hide Sound, Protocol.Enabled, Protocol.Next;
    assert [step][1..] == [];
  }

  lemma StepBefore(k: Kit, s: State, step: Protocol.Step, t: State, rest: seq<Protocol.Step>, u: State)
    requires Sound(s) && Protocol.Enabled(k, s, step) && t == Protocol.Next(k, s, step) && Follows(k, t, rest, u)
    ensures Follows(k, s, [step] + rest, u)
  {
    hide Sound, Protocol.Enabled, Protocol.Next;
    assert ([step] + rest)[1..] == rest;
  }
}
