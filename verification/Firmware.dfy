/** main.cpp: the objects, their glue, and one pass of loop(). */
module Firmware {
  import opened Bytes
  import opened Clock
  import opened Manifest
  import opened Hardware
  import opened OtaSpec
  import opened OtaRuns
  import opened Protocol
  import opened ProtocolSafety
  import opened MainLoop
  import opened Trail
  import OtaSafety
  import OtaDevice
  import Pull
  import Network
  import ConfigStore
  import ConfigRuns
  import Onboarding
  import Policy
  import Json
  import JsonReader
  import Wifi
  import Health

  /** What a request asks for, as its headers say. */
  datatype Route =
    | Rejected
    | Config
    | Confirm(token: seq<byte>)
    | Automatic(enable: bool)
    | GithubCheck
    | PrepareBody(file: bool)
    | Upload(token: seq<byte>, length: nat)
  {
    /** The transaction of a confirmation. */
    function Given(): Option<seq<byte>> {
      if Confirm? then Some(token) else None
    }
  }

  /** What the client's socket gives while it is served: a connection, the end of the answer, bytes of an upload, the
      peer's end, and of a request its headers or body, whole or over the limit. token is the random one of a
      preparation. */
  datatype Socket = Socket(accepted: bool, tooMany: bool, answered: bool, received: seq<byte>, closed: bool,
                           ends: bool, overflow: bool, complete: bool, body: seq<byte>, route: Route,
                           token: seq<byte>)

  /** What a pass of the running application gets from outside: whether association, address, server and memory are in
      order where the pass asks, the link, the coordinator's message and random token, whether the radio starts, and
      the client. */
  datatype Inputs = Inputs(atPoll: bool, atPull: bool, atRequest: bool, up: bool, jitter: u32, token: seq<byte>,
                           seen: Pull.Arrival, radio: bool, socket: Socket)

  /** And before that: the boot button, and what starts. */
  datatype Beginning = Beginning(undecided: bool, held: bool, mounted: bool, initialised: bool)

  /** The update operation a client's input asks for, if that is settled by flags and gates alone. */
  datatype Demand =
    | Silent
    | WantsPrepare(bytes: seq<byte>, token: seq<byte>, from: Origin)
    | WantsStart(token: seq<byte>, size: nat)
    | WantsChunk(bytes: seq<byte>)
    | WantsConfirm(token: seq<byte>, healthy: bool)
    | Unsaid

  predicate Does(demand: Demand, now: u32, sound: bool, op: Op) {
    match (demand, op)
    case (WantsPrepare(bytes, token, from), DoPrepare(b, t, o, n, fault)) =>
      b == bytes && t == token && o == from && n == now && (sound ==> !fault)
    case (WantsStart(token, size), DoStart(t, z, n, env)) =>
      t == token && z == size && n == now && (sound ==> GoodStart(env))
    case (WantsChunk(bytes), DoChunk(b, n, env)) => b == bytes && n == now && (sound ==> GoodChunk(env))
    case (WantsConfirm(token, healthy), DoConfirm(t, h, n, mark)) =>
      t == token && h == healthy && n == now && (sound ==> mark.marks)
    case _ => false
  }

  /** The demand is met, by exactly its operation. */
  predicate Meets(demand: Demand, now: u32, sound: bool, steps: seq<Protocol.Step>) {
    match demand
    case Unsaid => true
    case Silent => steps == []
    case _ => |steps| == 1 && steps[0].Loop? && Does(demand, now, sound, steps[0].op)
  }

  /** The parts of a pass, with what each was given. */
  datatype Part =
    | PollPart(environment: bool)
    | RebootPart
    | PullPart(environment: bool, token: seq<byte>, seen: Pull.Arrival)
    | NetworkPart(up: bool, jitter: u32, radio: bool)
    | ClientPart(environment: bool, socket: Socket)
    | HeartPart

  /** For specifications only: the runtime's calls since arm or begin left it as base, with the true times behind their
      clock readings, and the parts of the passes so far, in order. */
  class Watch {
    ghost var base: OtaSpec.Runtime
    ghost var armed: nat
    ghost var calls: seq<Health.Call>
    ghost var parts: seq<Part>

    constructor (ghost base: OtaSpec.Runtime, ghost armed: nat)
      ensures this.base == base && this.armed == armed && calls == [] && parts == []
    {
      this.base, this.armed, calls, parts := base, armed, [], [];
    }
  }

  /** The globals of main.cpp, over the objects they drive. */
  class Bridge {
    const pull: Pull.Coordinator
    const network: Network.NetworkState
    const store: ConfigStore.Store
    const policy: Policy.AutomaticPolicy
    const watch: Watch
    var started: bool
    var uploadAllowed: bool
    var bodyAllowed: bool
    var configBody: bool
    var fileBody: bool
    var responding: bool
    var clientOpen: bool
    var pendingReboot: bool
    var contentLength: nat
    ghost var token: seq<byte>
    ghost var pushed: seq<byte>
    /** The run of the configuration model so far, across boots, and the true time of the last pass. */
    ghost var trail: seq<Onboarding.App>
    ghost var moves: seq<Onboarding.Step>
    ghost var clock: nat

    constructor (pull: Pull.Coordinator, network: Network.NetworkState, store: ConfigStore.Store,
                 policy: Policy.AutomaticPolicy, watch: Watch, ghost trail: seq<Onboarding.App>,
                 ghost moves: seq<Onboarding.Step>, ghost clock: nat)
      ensures this.pull == pull && this.network == network && this.store == store && this.policy == policy
      ensures this.watch == watch
      ensures !started && !uploadAllowed && !bodyAllowed && !configBody && !responding && !clientOpen && !pendingReboot
      ensures this.trail == trail && this.moves == moves && this.clock == clock
    {
      this.pull, this.network, this.store, this.policy, this.watch := pull, network, store, policy, watch;
      started, uploadAllowed, bodyAllowed, configBody, fileBody := false, false, false, false, false;
      responding, clientOpen, pendingReboot := false, false, false;
      contentLength, token, pushed := 0, [], [];
      this.trail, this.moves, this.clock := trail, moves, clock;
    }

    ghost function View(): State
      reads pull`busy, pull`reboot, pull.port, pull.runtime, pull.runtime.updater, pull.runtime.writer,
          pull.runtime.board
    {
      pull.View()
    }

    function Kit(): OtaSpec.Kit {
      pull.runtime.writer.kit
    }

    ghost function Flags(): Glue
      reads this`uploadAllowed, this`responding, this`clientOpen, this`pendingReboot, this`contentLength, this`token,
            this`pushed, pull`requested, network`mode
    {
      Glue(uploadAllowed, responding, clientOpen, pendingReboot, pull.requested, network.mode, token, contentLength,
           pushed)
    }

    ghost function Last(): Onboarding.App
      requires |trail| > 0
      reads this`trail
    {
      trail[|trail| - 1]
    }

    /** The objects are wired together, both tasks' joint invariant holds, and so far only safe durable states. */
    ghost predicate Sane()
      reads network, pull`busy, pull`reboot, pull.port, pull.runtime, pull.runtime.updater, pull.runtime.writer,
            pull.runtime.board
    {
      && store.board == pull.runtime.board && policy.board == pull.runtime.board
      && pull.Ready() && ProtocolSafety.Inv(Kit(), View()) && AllSafe(Kit(), pull.runtime.board.log)
      && network.retryMs <= 60000 && (Serving(network.mode) ==> pull.runtime.begun)
    }

    /** An allowed upload owns the open transfer, and a configuration body is read only while provisioning. */
    ghost predicate Steady()
      reads this`uploadAllowed, this`responding, this`clientOpen, this`pendingReboot, this`contentLength, this`token,
            this`pushed, this`configBody, network, pull`busy, pull`reboot, pull`requested
      reads pull.port, pull.runtime, pull.runtime.updater, pull.runtime.writer, pull.runtime.board
    {
      && Sane() && During(Flags(), View())
      && (configBody && Serving(network.mode) ==> network.mode == Network.Provisioning)
    }

    /** The automatic switch in memory is the stored one, or off; checks start by themselves only when it is on. */
    ghost predicate SwitchHonest()
      reads pull`automatic, policy, pull.runtime.board
    {
      && Policy.Honest(pull.runtime.board.d.nvs, policy.enabled, policy.healthy)
      && (pull.automatic ==> policy.enabled)
    }

    /** Store, network and reboot flag are at the end of a run of the configuration model, which leaves every durable
        state so far; before the application starts they are at their first values. */
    ghost predicate Tracked()
      reads this`trail, this`moves, this`clock, this`started, this`pendingReboot
      reads network, store, policy, pull`automatic, pull.runtime.board
    {
      && |trail| > 0 && Traced(trail, moves, pull.runtime.board.d.nvs, pull.runtime.board.log) && SwitchHonest()
      && if started then Mirrored() && SamplesBefore(Last().samples, clock)
         else network.Value() == Network.STOPPED && store.Memory() == ConfigStore.FRESH && !pendingReboot &&
              !policy.enabled && !policy.healthy && Last().nvs == pull.runtime.board.d.nvs
    }

    ghost predicate Mirrored()
      requires |trail| > 0
      reads this`trail, this`pendingReboot, network, store
    {
      Last().mem == store.Memory() && Last().net == network.Value() && Last().pendingReboot == pendingReboot
    }

    /** The firmware's invariant in the middle of a pass. */
    ghost predicate Valid()
      reads this, network, store, policy, pull, pull.port, pull.runtime, pull.runtime.updater, pull.runtime.writer,
            pull.runtime.board
    {
      Steady() && Tracked() && (started || !configBody)
    }

    ghost function Watched(): MainLoop.Trial
      reads watch`base, watch`armed
    {
      MainLoop.Trial(Kit(), pull.runtime.identity, watch.base, watch.armed)
    }

    /** The runtime is where its calls have brought it, and if those began with a trial, armed is when. */
    ghost predicate Monitored()
      reads watch`base, watch`armed, watch`calls, pull.runtime
    {
      pull.runtime.Value() == Watched().After(watch.calls) && Watched().Ok()
    }

    /** otaHealthy: a running application in the station mode on an active configuration, and the rest of the
        environment in order. */
    predicate Healthy(environment: bool)
      reads this`started, store`state, network`mode
    {
      environment && started && store.state == ConfigStore.Active && network.mode == Network.Station
    }

    /** A reset now, or at any durable state so far, leaves what SetUp asks for: by LeftMayBoot. */
    ghost predicate Resumable()
      reads this`trail, this`moves, pull.runtime.board
    {
      && Onboarding.Run(trail, moves) && Onboarding.Inv(trail[0])
      && DurableInv(Kit(), pull.runtime.board.d) && Onboarding.LeftBy(trail, pull.runtime.board.d.nvs)
      && AllSafe(Kit(), pull.runtime.board.log) && AllLeft(trail, pull.runtime.board.log)
    }

    // ---- Closing and faults ---------------------------------------------------------------------------------

    method CloseClient() returns (ghost steps: seq<Protocol.Step>)
      requires Steady()
      modifies this`uploadAllowed, this`bodyAllowed, this`configBody, this`responding, this`clientOpen,
               pull.runtime.updater, pull.runtime.writer
      ensures Steady() && Pull.Follows(Kit(), old(View()), steps, View())
      ensures !uploadAllowed && !responding && !clientOpen && !configBody && Apart(steps)
    {
      hide Bridge.Steady, Bridge.View, Sound, Pull.Follows, Protocol.Enabled, Protocol.Next;
      steps := [];
      if uploadAllowed { steps := InterruptUpload(); } else { Pull.NoSteps(Kit(), View()); }
      DropClient();
    }

    /** Connection, request and answer are gone. */
    method DropClient()
      requires Steady()
      modifies this`uploadAllowed, this`bodyAllowed, this`configBody, this`responding, this`clientOpen
      ensures Steady() && !uploadAllowed && !responding && !clientOpen && !configBody
    {
      hide Bridge.Sane, Bridge.View, During;
      NoUpload(Flags(), Flags().(uploadAllowed := false, responding := false, clientOpen := false), View());
      uploadAllowed, bodyAllowed, configBody, responding, clientOpen := false, false, false, false, false;
    }

    /** closeClient's interrupt: it meets an open transfer only if that is the client's own. */
    method InterruptUpload() returns (ghost steps: seq<Protocol.Step>)
      requires Steady() && uploadAllowed
      modifies pull.runtime.updater, pull.runtime.writer
      ensures Steady() && Pull.Follows(Kit(), old(View()), steps, View())
      ensures pull.runtime.updater.phase != Receiving && Apart(steps)
    {
      hide ProtocolSafety.Inv, AllSafe, Sound, Protocol.Enabled, Protocol.Next;
      ghost var before := View();
      steps := if before.dev.u.phase == Receiving then [Loop(DoInterrupt)] else [];
      pull.runtime.updater.InterruptTransfer();
      if before.dev.u.phase == Receiving {
        OpFollows(Kit(), before, DoInterrupt);
        assert View() == before.(dev := Exec(Kit(), before.dev, DoInterrupt).0);
      } else {
        assert View() == before;
      }
      FollowsKeeps(Kit(), before, steps, View());
    }

    /** fault: everything off. */
    method Halt() returns (ghost steps: seq<Protocol.Step>)
      requires Steady()
      modifies this`uploadAllowed, this`bodyAllowed, this`configBody, this`responding, this`clientOpen, network`mode,
               pull.runtime.updater, pull.runtime.writer
      ensures Steady() && Pull.Follows(Kit(), old(View()), steps, View()) && !uploadAllowed
      ensures network.mode == Network.Fault && Apart(steps)
    {
      hide ProtocolSafety.Inv, AllSafe, Sound, Pull.Follows, Protocol.Enabled, Protocol.Next,
           Pull.Coordinator.Ready, Bridge.View;
      steps := CloseClient();
      network.mode := Network.Fault;
    }

    method Fault() returns (ghost steps: seq<Protocol.Step>)
      requires Valid() && started
      modifies this`uploadAllowed, this`bodyAllowed, this`configBody, this`responding, this`clientOpen, this`trail,
               this`moves, network`mode, pull.runtime.updater, pull.runtime.writer
      ensures Valid() && Pull.Follows(Kit(), old(View()), steps, View()) && !uploadAllowed
      ensures network.mode == Network.Fault && Apart(steps) && old(moves) <= moves
    {
      hide Bridge.Steady, Bridge.View, Pull.Follows, Protocol.Enabled, Protocol.Next, Rooted, ConfigRuns.SameConfig,
           Policy.Honest;
      steps := Halt();
      Note(Onboarding.AnyFault, Last().(net := Last().net.(mode := Network.Fault)));
    }

    /** Records one step of the configuration model. */
    ghost method Note(step: Onboarding.Step, next: Onboarding.App)
      requires Rooted(trail, moves, pull.runtime.board.log) && SwitchHonest() && started
      requires Onboarding.Follows(Last(), step, next) && ConfigRuns.SameConfig(next.nvs, pull.runtime.board.d.nvs)
      requires next.mem == store.Memory() && next.net == network.Value() && next.pendingReboot == pendingReboot
      requires SamplesBefore(next.samples, clock)
      modifies this`trail, this`moves
      ensures Tracked() && Last() == next && moves == old(moves) + [step]
    {
      hide Onboarding.Follows, Onboarding.Inv, AllLeft, ConfigRuns.SameConfig;
      TraceGrows(trail, moves, step, next, pull.runtime.board.d.nvs, pull.runtime.board.log);
      trail, moves := trail + [next], moves + [step];
    }

    /** Brings the run up to the records that others wrote. */
    ghost method Sync()
      requires Tracked() && started
      modifies this`trail, this`moves
      ensures Tracked() && Last() == old(Last()).(nvs := pull.runtime.board.d.nvs)
      ensures moves == old(moves) + [Onboarding.OtherRecords(pull.runtime.board.d.nvs)]
    {
      hide Onboarding.Inv, Onboarding.LeftBy;
      ghost var nvs := pull.runtime.board.d.nvs;
      ghost var next := Last().(nvs := nvs);
      assert Onboarding.Follows(Last(), Onboarding.OtherRecords(nvs), next);
      TraceGrows(trail, moves, Onboarding.OtherRecords(nvs), next, nvs, pull.runtime.board.log);
      trail, moves := trail + [next], moves + [Onboarding.OtherRecords(nvs)];
    }

    /** A selected image waits for the reset. */
    method AskReboot()
      requires Tracked() && started
      modifies this`pendingReboot, this`trail, this`moves
      ensures Tracked() && pendingReboot
    {
      hide Rooted, ConfigRuns.SameConfig;
      pendingReboot := true;
      Note(Onboarding.OtaReboot, Last().(pendingReboot := true));
    }

    /** Writing records changes nothing else about the device. */
    twostate lemma OnlyRecords()
      requires unchanged(pull, pull.port, pull.runtime, pull.runtime.updater, pull.runtime.writer)
      requires old(pull.Ready()) && pull.runtime.board.d == old(pull.runtime.board.d).(nvs := pull.runtime.board.d.nvs)
      ensures pull.Ready()
      ensures View() == old(View()).(dev := old(View()).dev.(d := old(View()).dev.d.(nvs := pull.runtime.board.d.nvs)))
      ensures old(View()).dev.d == old(pull.runtime.board.d)
    {
    }

    /** Nor do durable states with the records as they were change the run. */
    twostate lemma RecordsStand()
      requires old(Tracked()) && started && unchanged(network, store, policy, pull`automatic)
      requires unchanged(this`trail, this`moves, this`clock, this`started, this`pendingReboot)
      requires LogStays(old(pull.runtime.board.log), pull.runtime.board.log, old(pull.runtime.board.d.nvs))
      ensures Rooted(trail, moves, pull.runtime.board.log)
      ensures pull.runtime.board.d.nvs == old(pull.runtime.board.d.nvs) ==> Tracked()
    {
      hide Rooted, Policy.Honest, ConfigRuns.SameConfig, SamplesBefore;
      ghost var nvs := old(pull.runtime.board.d.nvs);
      LeftNow(trail, nvs);
      StaysRooted(trail, moves, old(pull.runtime.board.log), pull.runtime.board.log, nvs);
    }

    // ---- Uploads --------------------------------------------------------------------------------------------

    /** The upload route: the token is consumed by a start of its own. */
    method StartUpload(given: seq<byte>, size: nat, now: u32) returns (ghost steps: seq<Protocol.Step>)
      requires Valid() && started && !uploadAllowed && !responding && clientOpen && !pendingReboot &&
               Serving(network.mode)
      requires !pull.busy && !pull.requested && CanUpdate(pull.runtime.Value(), Kit())
      modifies this`uploadAllowed, this`responding, this`contentLength, this`token, this`pushed, pull.runtime.updater,
               pull.runtime.writer, pull.runtime.board
      ensures Valid() && Pull.Follows(Kit(), old(View()), steps, View())
      ensures uploadAllowed ==> token == given && contentLength == size && pushed == []
      ensures uploadAllowed ==> Between(Flags(), View())
      ensures Meets(WantsStart(given, size), now, pull.runtime.board.sound, steps)
      ensures uploadAllowed <==> pull.runtime.updater.phase == Receiving && old(pull.runtime.updater.phase) == Prepared
    {
      hide ProtocolSafety.Inv, AllSafe, Sound, CanUpdate, StartRun, Pull.Follows, Protocol.Enabled, Protocol.Next,
           OtaDevice.Runtime.Ready, Tracked;
      var ok;
      ghost var before := View();
      ghost var env;
      ok, steps, env := OpenTransfer(given, size, now);
      StartOpensUpload(Kit(), before, given, size, now, env);
      AdmitUpload(ok, given, size);
      if uploadAllowed { StillOpen(Flags(), View()); }
    }

    /** What follows a start: the upload is admitted, or the request is refused. */
    method AdmitUpload(ok: bool, given: seq<byte>, size: nat)
      requires Sane() && Shaped(View().dev) && !uploadAllowed && !responding && clientOpen && !pendingReboot &&
               Serving(network.mode)
      requires configBody ==> network.mode == Network.Provisioning
      requires ok ==>
                 var s := View();
                 !s.busy && !s.reboot && !pull.requested && s.dev.u.phase == Receiving && !Own(s.dev) &&
                 s.dev.u.token == given && s.dev.u.manifest.imageSize == size && s.dev.u.received == 0 &&
                 Slot(s.dev) == []
      modifies this`uploadAllowed, this`responding, this`contentLength, this`token, this`pushed
      ensures Steady()
      ensures uploadAllowed ==> token == given && contentLength == size && pushed == []
      ensures uploadAllowed == ok && (ok ==> View().dev.u.phase == Receiving)
    {
      hide ProtocolSafety.Inv, AllSafe, Sound, Protocol.Enabled, Protocol.Next, Pull.Coordinator.Ready,
           Pull.Coordinator.View;
      if !ok { responding := true; return; }
      uploadAllowed, contentLength, token, pushed := true, size, given, [];
    }

    /** start, as a step of the protocol. */
    method OpenTransfer(given: seq<byte>, size: nat, now: u32)
      returns (ok: bool, ghost steps: seq<Protocol.Step>, ghost env: StartEnv)
      requires Sane() && Tracked() && started && !pull.busy && Serving(network.mode) &&
               CanUpdate(pull.runtime.Value(), Kit())
      modifies pull.runtime.updater, pull.runtime.writer, pull.runtime.board
      ensures Sane() && Tracked()
      ensures Pull.Follows(Kit(), old(View()), steps, View()) && Proper(old(View()).dev) && Shaped(View().dev)
      ensures View() == old(View()).(dev := StartRun(Kit(), old(View()).dev, given, size, now, env).0)
      ensures ok <==> pull.runtime.updater.phase == Receiving && old(pull.runtime.updater.phase) == Prepared
      ensures steps == [Loop(DoStart(given, size, now, env))] && (pull.runtime.board.sound ==> GoodStart(env))
    {
      hide ProtocolSafety.Inv, AllSafe, Sound, Protocol.Enabled, Protocol.Next, CanUpdate, StartRun, Traced,
           OtaOnly, LogOtaOnly, OtaRuns.Inv;
      ghost var before := View();
      DeviceInv(Kit(), before);
      ok, env := pull.StartSafely(given, size, now);
      steps := [Loop(DoStart(given, size, now, env))];
      OpFollows(Kit(), before, DoStart(given, size, now, env));
      assert View() == before.(dev := StartRun(Kit(), before.dev, given, size, now, env).0);
      FollowsKeeps(Kit(), before, steps, View());
      DeviceInv(Kit(), View());
      OtaWrote(old(pull.runtime.board.d.nvs), old(pull.runtime.board.log));
    }

    /** The update code's writes leave run and switch where they are. */
    lemma OtaWrote(nvs: Blobs, log: seq<Durable>)
      requires Traced(trail, moves, nvs, log) && Policy.Honest(nvs, policy.enabled, policy.healthy)
      requires OtaOnly(nvs, pull.runtime.board.d.nvs) && LogOtaOnly(log, pull.runtime.board.log, nvs)
      ensures Traced(trail, moves, pull.runtime.board.d.nvs, pull.runtime.board.log)
      ensures Policy.Honest(pull.runtime.board.d.nvs, policy.enabled, policy.healthy)
    {
      hide Traced, LogOtaOnly;
      OtaTraced(trail, moves, nvs, log, pull.runtime.board.d.nvs, pull.runtime.board.log);
      Policy.SwitchStays(nvs, pull.runtime.board.d.nvs, policy.enabled, policy.healthy);
    }

    /** What an upload's bytes ask for: as many as are missing, and at most 1024, go to the open transfer. */
    function UploadDemand(socket: Socket): Demand
      reads this`contentLength, pull.runtime.updater
    {
      var updater := pull.runtime.updater;
      if updater.phase != Receiving then Silent
      else if 0 < |socket.received| <= 1024 && updater.received + |socket.received| <= contentLength
      then WantsChunk(socket.received)
      else if socket.closed then Unsaid
      else Silent
    }

    /** The upload branch of serviceHttp: bytes received for this request go to its own transfer. */
    method ServeUpload(now: u32, socket: Socket) returns (ghost steps: seq<Protocol.Step>)
      requires Valid() && started && uploadAllowed
      modifies this, pull.runtime.updater, pull.runtime.writer, pull.runtime.board
      ensures Valid() && started && Pull.Follows(Kit(), old(View()), steps, View())
      ensures Between(Flags(), View())
      ensures uploadAllowed ==> token == old(token) && old(pushed) <= pushed
      ensures clock == old(clock) && (pendingReboot ==> WholeImage(View(), contentLength, pushed))
      ensures Apart(steps) && Meets(old(UploadDemand(socket)), now, pull.runtime.board.sound, steps)
    {
      hide Bridge.Sane, Bridge.Tracked, During, Between, Sound, Pull.Follows, Protocol.Enabled, Protocol.Next,
           WholeImage;
      steps := [];
      Pull.NoSteps(Kit(), View());
      UploadsAreQuiet(Flags(), View());
      if pull.runtime.updater.phase != Receiving {
        FailUpload();
        return;
      }
      var left := contentLength - pull.runtime.updater.received;
      var room := if left < CHUNK_MAX then left else CHUNK_MAX;
      if 0 < |socket.received| <= room {
        steps := PushBytes(socket.received, now);
      } else if socket.closed { // nothing received
        steps := CloseClient();
        NotAllowed(Flags(), View());
      } else {
        StillOpen(Flags(), View());
      }
    }

    /** The upload is answered and over. */
    method FailUpload()
      requires Steady() && uploadAllowed
      modifies this`responding, this`uploadAllowed
      ensures Steady() && Between(Flags(), View()) && responding && !uploadAllowed
    {
      hide Bridge.Sane, Bridge.View, OwnUpload;
      responding, uploadAllowed := true, false;
    }

    /** A received chunk: the transfer goes on with exactly these bytes more, has failed, or is complete, and then the
        slot holds the whole body. */
    method PushBytes(bytes: seq<byte>, now: u32) returns (ghost steps: seq<Protocol.Step>)
      requires Valid() && started && uploadAllowed && pull.runtime.updater.phase == Receiving
      modifies this, pull.runtime.updater, pull.runtime.writer, pull.runtime.board
      ensures Valid() && started && Pull.Follows(Kit(), old(View()), steps, View())
      ensures Between(Flags(), View()) && pushed == old(pushed) + bytes && contentLength == old(contentLength)
      ensures uploadAllowed == (pull.runtime.updater.phase == Receiving) && (uploadAllowed ==> token == old(token))
      ensures pendingReboot == (pull.runtime.updater.phase == RebootPending)
      ensures clock == old(clock) && (pendingReboot ==> WholeImage(View(), contentLength, pushed))
      ensures Meets(WantsChunk(bytes), now, pull.runtime.board.sound, steps)
    {
      hide ProtocolSafety.Inv, AllSafe, Sound, ChunkRun, Pull.Follows, Protocol.Enabled, Protocol.Next,
           OtaDevice.Runtime.Ready, Between, Tracked, Slot;
      ghost var before, flags := View(), Flags();
      var ok;
      ghost var env;
      ok, steps, env := FeedTransfer(bytes, now);
      ChunkExtendsUpload(Kit(), flags, before, bytes, now, env);
      SettleUpload(ok, bytes);
    }

    /** What follows a chunk: the upload goes on, has failed, or is complete. */
    method SettleUpload(ok: bool, ghost bytes: seq<byte>)
      requires Sane() && Tracked() && started && !pendingReboot && uploadAllowed && Serving(network.mode)
      requires Shaped(View().dev) && View().dev.u.phase == pull.runtime.updater.phase
      requires configBody ==> network.mode == Network.Provisioning
      requires ok <==> pull.runtime.updater.phase == Receiving || pull.runtime.updater.phase == RebootPending
      requires pull.runtime.updater.phase == Receiving ==> Between(Flags().(pushed := pushed + bytes), View())
      modifies this`uploadAllowed, this`responding, this`pendingReboot, this`pushed, this`trail, this`moves
      ensures Valid() && Between(Flags(), View()) && pushed == old(pushed) + bytes
      ensures uploadAllowed == (pull.runtime.updater.phase == Receiving)
      ensures pendingReboot == (pull.runtime.updater.phase == RebootPending)
    {
      hide ProtocolSafety.Inv, AllSafe, Sound, Protocol.Enabled, Protocol.Next, Pull.Coordinator.Ready,
           Pull.Coordinator.View, OwnUpload, Tracked;
      pushed := pushed + bytes;
      if !ok {
        uploadAllowed, responding := false, true;
      } else if pull.runtime.updater.phase == RebootPending {
        AskReboot();
        uploadAllowed, responding := false, true;
      }
    }

    /** chunk, as a step of the protocol. */
    method FeedTransfer(bytes: seq<byte>, now: u32) returns (ok: bool, ghost steps: seq<Protocol.Step>,
        ghost env: ChunkEnv)
      requires Sane() && Tracked() && started && !pull.busy && pull.runtime.updater.phase == Receiving
      modifies pull.runtime.updater, pull.runtime.writer, pull.runtime.board
      ensures Sane() && Tracked()
      ensures Pull.Follows(Kit(), old(View()), steps, View()) && Proper(old(View()).dev) && Shaped(View().dev)
      ensures View() == old(View()).(dev := ChunkRun(Kit(), old(View()).dev, bytes, now, env).0)
      ensures ok <==> pull.runtime.updater.phase == Receiving || pull.runtime.updater.phase == RebootPending
      ensures steps == [Loop(DoChunk(bytes, now, env))] && (pull.runtime.board.sound ==> GoodChunk(env))
    {
      hide ProtocolSafety.Inv, AllSafe, Sound, Protocol.Enabled, Protocol.Next, ChunkRun, Traced, OtaOnly,
           LogOtaOnly, OtaRuns.Inv;
      ghost var before := View();
      DeviceInv(Kit(), before);
      ok, env := pull.ChunkSafely(bytes, now);
      steps := [Loop(DoChunk(bytes, now, env))];
      OpFollows(Kit(), before, DoChunk(bytes, now, env));
      assert View() == before.(dev := ChunkRun(Kit(), before.dev, bytes, now, env).0);
      FollowsKeeps(Kit(), before, steps, View());
      DeviceInv(Kit(), View());
      OtaWrote(old(pull.runtime.board.d.nvs), old(pull.runtime.board.log));
    }

    // ---- Requests -------------------------------------------------------------------------------------------

    /** An answer to the client. */
    method Respond()
      requires Steady() && !uploadAllowed
      modifies this`responding
      ensures Steady()
    {
      hide ProtocolSafety.Inv, AllSafe, Sound, Protocol.Enabled, Protocol.Next, Pull.Coordinator.Ready,
           Pull.Coordinator.View;
      responding := true;
    }

    /** The body may be read: a configuration's only while provisioning. */
    method AllowBody(config: bool, file: bool)
      requires Steady() && !uploadAllowed && (config ==> network.mode == Network.Provisioning)
      modifies this`bodyAllowed, this`configBody, this`fileBody
      ensures Steady() && bodyAllowed && configBody == config && fileBody == file
    {
      hide ProtocolSafety.Inv, AllSafe, Sound, Protocol.Enabled, Protocol.Next, Pull.Coordinator.Ready,
           Pull.Coordinator.View;
      bodyAllowed, configBody, fileBody := true, config, file;
    }

    /** The confirm route. */
    method ConfirmRoute(given: seq<byte>, environment: bool, now: u32) returns (ghost steps: seq<Protocol.Step>)
      requires Valid() && started && !uploadAllowed && Monitored() && now == Millis(clock)
      modifies this`responding, watch`calls, pull.runtime, pull.runtime.board
      ensures Valid() && Monitored() && Pull.Follows(Kit(), old(View()), steps, View())
      ensures Meets(WantsConfirm(given, Healthy(environment)), now, pull.runtime.board.sound, steps)
      ensures ConfirmedOnce(given, Healthy(environment))
    {
      hide ProtocolSafety.Inv, AllSafe, Sound, Pull.Follows, Protocol.Enabled, Protocol.Next,
           OtaDevice.Runtime.Ready, Tracked, Monitored;
      steps := ConfirmNow(given, Healthy(environment), now);
      responding := true;
    }

    /** A confirmation was one call, now, and marked the image valid exactly if that call does. */
    twostate predicate ConfirmedOnce(given: seq<byte>, healthy: bool)
      reads watch`base, watch`calls, this`clock, pull.runtime.board`d
    {
      var before, k, id := old(watch.calls), Kit(), pull.runtime.identity;
      |watch.calls| == |before| + 1 && before == watch.calls[..|before|] &&
      var call := watch.calls[|before|];
      call.ConfirmCall? && call == Health.ConfirmCall(clock, given, healthy, call.marks) &&
      pull.runtime.board.d.history ==
      old(pull.runtime.board.d.history) +
      if Health.Marks(k, id, Health.After(k, id, watch.base, before), call) then [MarkedValid(false)] else []
    }

    lemma Named()
      requires Sane()
      ensures |View().dev.d.slots| == 2 && pull.runtime.writer.running < 2
      ensures pull.runtime.Ready() && pull.runtime.identity == Id(Kit(), View().dev)
    {
      hide QueueInv, WorkerInv, TransferInv, SelectedInv, LoopInv, DurableInv, UpdaterInv, BootInv, RuntimeInv;
    }

    /** One more call of the runtime. */
    ghost method NoteCall(call: Health.Call, before: OtaSpec.Runtime)
      requires before == Health.After(Kit(), pull.runtime.identity, watch.base, watch.calls)
      requires watch.base.pending ==> Health.TrialFrom(watch.base, watch.armed)
      requires pull.runtime.Value() == Health.Apply(Kit(), pull.runtime.identity, before, call)
      modifies watch`calls
      ensures Monitored() && watch.calls == old(watch.calls) + [call]
    {
      hide Health.Apply, Health.TrialFrom;
      assert (watch.calls + [call])[..|watch.calls|] == watch.calls;
      watch.calls := watch.calls + [call];
    }

    /** confirm, and its call noted. */
    method CallConfirm(given: seq<byte>, healthy: bool, now: u32) returns (ghost mark: MarkEnv)
      requires pull.Ready() && Shaped(View().dev) && pull.runtime.identity == Id(Kit(), View().dev)
      requires Monitored() && now == Millis(clock)
      modifies watch`calls, pull.runtime, pull.runtime.board
      ensures pull.Ready() && Monitored() && (pull.runtime.board.sound ==> mark.marks)
      ensures View() == old(View()).(dev := ConfirmRun(Kit(), old(View()).dev, given, healthy, now, mark).0)
      ensures OtaDevice.Within(pull.runtime.board.log, old(pull.runtime.board.log), old(pull.runtime.board.d),
                               [pull.runtime.board.d])
      ensures ConfirmedOnce(given, healthy)
    {
      hide MayConfirm, OtaDevice.Within, OtaDevice.Updater.Ready, Health.Marks, Health.Apply, Health.TrialFrom;
      ghost var before := View().dev;
      var ok;
      ok, mark := pull.runtime.ConfirmWith(given, healthy, now, false);
      Health.ConfirmOfDevice(Kit(), before, clock, given, healthy, mark);
      NoteCall(Health.ConfirmCall(clock, given, healthy, mark.marks), before.rt);
    }

    /** confirm, as a step of the protocol. */
    method ConfirmNow(given: seq<byte>, healthy: bool, now: u32) returns (ghost steps: seq<Protocol.Step>)
      requires Sane() && Tracked() && started && Monitored() && now == Millis(clock)
      modifies watch`calls, pull.runtime, pull.runtime.board
      ensures Sane() && Tracked() && Shaped(View().dev) && Monitored()
      ensures Pull.Follows(Kit(), old(View()), steps, View())
      ensures Meets(WantsConfirm(given, healthy), now, pull.runtime.board.sound, steps) && ConfirmedOnce(given, healthy)
    {
      hide ProtocolSafety.Inv, AllSafe, Sound, Protocol.Enabled, Protocol.Next, MayConfirm, OtaRuns.Inv,
           OtaDevice.Within, OtaDevice.Runtime.Ready, Bridge.Tracked, LogStays, Monitored, Bridge.ConfirmedOnce;
      ghost var before := View();
      DeviceInv(Kit(), before);
      IsProper(Kit(), before.dev);
      Named();
      ghost var mark := CallConfirm(given, healthy, now);
      ghost var op := DoConfirm(given, healthy, now, mark);
      steps := [Loop(op)];
      OpFollows(Kit(), before, op);
      ConfirmIs(Kit(), before.dev, op);
      assert View() == before.(dev := Exec(Kit(), before.dev, op).0);
      FollowsKeeps(Kit(), before, steps, View());
      DeviceInv(Kit(), View());
      RuntimeOpSafe(Kit(), before.dev, op, old(pull.runtime.board.log), pull.runtime.board.log, [pull.runtime.board.d]);
      RecordsStand();
    }

    /** What a request's headers ask of the update code, behind the gates. */
    function RouteDemand(route: Route, environment: bool): Demand
      reads this`started, this`pendingReboot, store`state, network`mode, pull`busy, pull`requested, pull.runtime
    {
      match route
      case Confirm(token) => WantsConfirm(token, Healthy(environment))
      case Automatic(_) => Unsaid
      case Upload(token, length) =>
        if CanUpdate(pull.runtime.Value(), Kit()) && Healthy(environment) && !pendingReboot && !pull.busy &&
           !pull.requested
        then WantsStart(token, length) else Silent
      case _ => Silent
    }

    /** A request whose headers are in: the gates of all routes that change anything. */
    method HeaderGate(route: Route, environment: bool, now: u32) returns (ghost steps: seq<Protocol.Step>)
      requires Valid() && started && !uploadAllowed && !responding && clientOpen && !pendingReboot &&
               Serving(network.mode) && Monitored() && now == Millis(clock)
      modifies this, watch`calls, policy, pull, pull.runtime, pull.runtime.updater, pull.runtime.writer,
               pull.runtime.board
      ensures Valid() && started && Pull.Follows(Kit(), old(View()), steps, View())
      ensures Between(Flags(), View()) && clock == old(clock) && Monitored()
      ensures Meets(old(RouteDemand(route, environment)), now, pull.runtime.board.sound, steps)
      ensures if route.Confirm? then ConfirmedOnce(route.token, old(Healthy(environment)))
              else Apart(steps) && watch.calls == old(watch.calls)
      ensures route == Automatic(false) ==> !pull.automatic
    {
      hide Bridge.Sane, Bridge.View, Bridge.Tracked, Sound, CanUpdate, Pull.Follows, Protocol.Enabled, Protocol.Next,
           During, Between, Monitored, Bridge.ConfirmedOnce;
      steps := [];
      Pull.NoSteps(Kit(), View());
      match route {
        case Confirm(given) => steps := ConfirmRoute(given, environment, now);
        case Config =>
          if network.mode == Network.Provisioning && store.state == ConfigStore.Empty {
            AllowBody(true, false);
          } else {
            Respond();
          }
        case Automatic(enable) =>
          var done;
          done, steps := AutomaticRoute(enable, environment, now);
        case _ => steps := UpdateGate(route, environment, now);
      }
      if !uploadAllowed { NotAllowed(Flags(), View()); }
    }

    /** The automatic switch. Off works in any condition and stops further automatic checks even if it cannot be stored;
        success is claimed only for the stored switch. */
    method AutomaticRoute(enable: bool, environment: bool, now: u32)
      returns (done: bool, ghost steps: seq<Protocol.Step>)
      requires Valid() && started && !uploadAllowed
      modifies this`responding, policy, pull`automatic, pull`scheduledAt, pull`wait, pull.runtime.board
      ensures Valid() && Pull.Follows(Kit(), old(View()), steps, View()) && Apart(steps)
      ensures !enable ==> !pull.automatic
      ensures done ==> pull.automatic == enable && Policy.Stored(pull.runtime.board.d.nvs) == enable
      ensures !done ==> pull.automatic ==> old(pull.automatic)
      ensures done && enable ==> old(MayEnable(environment))
      ensures pull.runtime.board.sound && (enable ==> old(MayEnable(environment))) ==> done
    {
      hide Bridge.Steady, Bridge.View, Bridge.Mirrored, SamplesBefore, Sound, CanUpdate, Pull.Follows,
           Protocol.Enabled, Protocol.Next, Traced, Policy.Honest, Policy.Stored;
      steps := [];
      Pull.NoSteps(Kit(), View());
      done := false;
      Respond();
      if enable {
        var may := AskEnable(environment);
        if !may { return; }
      }
      var random: u32, again: u32 := *, *;
      if !enable { pull.SetAutomatic(false, now, random); }
      done, steps := SaveSwitch(enable);
      pull.SetAutomatic(done && enable, now, again);
    }

    /** On is for a healthy device that could update now. */
    predicate MayEnable(environment: bool)
      reads this`started, this`pendingReboot, store`state, network`mode, pull`busy, pull`requested, pull.runtime,
            pull.runtime.updater
    {
      && CanUpdate(pull.runtime.Value(), Kit()) && environment && started && store.state == ConfigStore.Active
      && network.mode == Network.Station && !pull.busy && !pull.requested && !pendingReboot
      && (pull.runtime.updater.phase == Idle || pull.runtime.updater.phase == Failed)
    }

    method AskEnable(environment: bool) returns (may: bool)
      ensures may == MayEnable(environment)
    {
      hide CanUpdate;
      may := pull.runtime.MayUpdate();
      var phase := pull.runtime.updater.phase;
      may := may && Healthy(environment) && !pendingReboot && !pull.busy && !pull.requested &&
             (phase == Idle || phase == Failed);
    }

    method SaveSwitch(enable: bool) returns (saved: bool, ghost steps: seq<Protocol.Step>)
      requires Steady() && Tracked() && started && (!enable ==> !pull.automatic)
      modifies policy, pull.runtime.board
      ensures Steady() && Pull.Follows(Kit(), old(View()), steps, View())
      ensures Traced(trail, moves, pull.runtime.board.d.nvs, pull.runtime.board.log)
      ensures Policy.Honest(pull.runtime.board.d.nvs, policy.enabled, policy.healthy)
      ensures saved ==> policy.enabled == enable && Policy.Stored(pull.runtime.board.d.nvs) == enable
      ensures !saved ==> !policy.enabled && !pull.runtime.board.sound
      ensures Apart(steps)
    {
      hide ProtocolSafety.Inv, AllSafe, Sound, Pull.Follows, Protocol.Enabled, Protocol.Next, Traced, During,
           Policy.Stored, Policy.Honest, Policy.Encoded;
      ghost var before, flags := View(), Flags();
      saved := policy.Save(enable);
      OnlyRecords();
      ghost var nvs := pull.runtime.board.d.nvs;
      SwitchTaken(Kit(), before, nvs, Policy.Encoded(enable), trail, moves, old(pull.runtime.board.log),
          pull.runtime.board.log);
      OtherLeavesUpload(flags, before, nvs);
      steps := [Loop(DoOther(nvs))];
    }

    /** The gates of the update routes behind confirm and the switch. */
    method UpdateGate(route: Route, environment: bool, now: u32) returns (ghost steps: seq<Protocol.Step>)
      requires Valid() && started && !uploadAllowed && !responding && clientOpen && !pendingReboot &&
               Serving(network.mode)
      requires !route.Confirm? && !route.Config? && !route.Automatic?
      modifies this, pull`requested, pull.runtime.updater, pull.runtime.writer, pull.runtime.board
      ensures Valid() && started && Pull.Follows(Kit(), old(View()), steps, View())
      ensures uploadAllowed ==> Between(Flags(), View())
      ensures trail == old(trail) && moves == old(moves) && clock == old(clock)
      ensures Meets(old(RouteDemand(route, environment)), now, pull.runtime.board.sound, steps) && Apart(steps)
      ensures route.PrepareBody? ==>
                bodyAllowed == (old(bodyAllowed) || old(OpenToUpdates(environment))) &&
                (old(OpenToUpdates(environment)) ==> !configBody && fileBody == route.file)
      ensures uploadAllowed <==>
                && route.Upload? && old(OpenToUpdates(environment))
                && pull.runtime.updater.phase == Receiving && old(pull.runtime.updater.phase) == Prepared
    {
      hide ProtocolSafety.Inv, AllSafe, Sound, CanUpdate, Pull.Follows, Protocol.Enabled, Protocol.Next,
           Pull.Coordinator.Ready, Pull.Coordinator.View, During, Tracked, Bridge.Steady;
      steps := [];
      Pull.NoSteps(Kit(), View());
      var may := pull.runtime.MayUpdate();
      if route.Rejected? || !may || !Healthy(environment) || pendingReboot {
        Respond();
      } else if route.GithubCheck? {
        RequestCheck(now);
      } else if pull.busy || pull.requested {
        Respond();
      } else if route.PrepareBody? {
        AllowBody(false, route.file);
      } else {
        steps := StartUpload(route.token, route.length, now);
      }
    }

    /** The gates in front of a preparation or an upload. */
    predicate OpenToUpdates(environment: bool)
      reads this`started, this`pendingReboot, store`state, network`mode, pull`busy, pull`requested, pull.runtime
    {
      && CanUpdate(pull.runtime.Value(), Kit()) && environment && started && store.state == ConfigStore.Active
      && network.mode == Network.Station && !pendingReboot && !pull.busy && !pull.requested
    }

    /** The route that asks for a check now: the coordinator decides, unless a transaction is in hand. */
    method RequestCheck(now: u32)
      requires Valid() && !uploadAllowed
      modifies this`responding, pull`requested
      ensures Valid() && View() == old(View()) && responding
      ensures pull.requested ==
              (old(pull.requested) || ((pull.runtime.updater.phase == Idle || pull.runtime.updater.phase == Failed) &&
                                       old(pull.Accepts(now))))
    {
      hide ProtocolSafety.Inv, AllSafe, Sound, Protocol.Enabled, Protocol.Next, OtaDevice.Runtime.Ready, Tracked;
      var phase := pull.runtime.updater.phase;
      if phase == Idle || phase == Failed { var _ := pull.Request(now); }
      responding := true;
    }

    // ---- Bodies ---------------------------------------------------------------------------------------------

    /** A complete body: a configuration to store, or an envelope to prepare. */
    method ProcessBody(bytes: seq<byte>, newToken: seq<byte>, now: u32) returns (ghost steps: seq<Protocol.Step>)
      requires Valid() && started && !uploadAllowed && Serving(network.mode)
      modifies this, network, store, pull.runtime.updater, pull.runtime.writer, pull.runtime.board
      ensures Valid() && started && Pull.Follows(Kit(), old(View()), steps, View()) && !uploadAllowed
      ensures clock == old(clock) && Apart(steps)
      ensures !old(configBody) ==>
                Meets(WantsPrepare(bytes, newToken, if old(fileBody) then WebFile else LegacyPush), now,
                      pull.runtime.board.sound, steps)
      ensures old(configBody) ==> Saved(bytes)
    {
      hide ProtocolSafety.Inv, AllSafe, Sound, Pull.Follows, Protocol.Enabled, Protocol.Next,
           Pull.Coordinator.Ready, Pull.Coordinator.View, During, Tracked;
      if configBody {
        steps := SaveConfig(bytes);
      } else {
        steps := PrepareRoute(bytes, newToken, if fileBody then WebFile else LegacyPush, now);
      }
    }

    method PrepareRoute(bytes: seq<byte>, newToken: seq<byte>, from: Origin,
        now: u32) returns (ghost steps: seq<Protocol.Step>)
      requires Valid() && started && !uploadAllowed && from != GithubPull && Serving(network.mode)
      modifies this`responding, pull.runtime.updater, pull.runtime.writer
      ensures Valid() && Pull.Follows(Kit(), old(View()), steps, View())
      ensures Meets(WantsPrepare(bytes, newToken, from), now, pull.runtime.board.sound, steps) && Apart(steps)
    {
      hide ProtocolSafety.Inv, AllSafe, Sound, Protocol.Enabled, Protocol.Next, PrepareRun, PrepareAccepts,
           OtaDevice.Runtime.Ready, Tracked;
      responding := true;
      ghost var before := View();
      var ok;
      ghost var fault;
      ok, fault := pull.runtime.Prepare(bytes, newToken, from, now);
      steps := [Loop(DoPrepare(bytes, newToken, from, now, fault))];
      OpFollows(Kit(), before, DoPrepare(bytes, newToken, from, now, fault));
      assert View() == before.(dev := PrepareRun(Kit(), before.dev, bytes, newToken, from, now, fault));
      FollowsKeeps(Kit(), before, steps, View());
    }

    /** The outcome of a configuration body: a valid document against the present revision is staged, and a reboot asked
        for; if staging fails everything stops. */
    twostate predicate Saved(json: seq<byte>)
      reads store, network`mode, this`pendingReboot, pull.runtime.board`d
    {
      var c := Json.ParseConfig(json);
      var stages := c.Some? && c.value.revision == old(store.revision) && old(store.revision) != U32_MAX;
      if !stages then network.mode == Network.Provisioning && store.Memory() == old(store.Memory())
      else ConfigStore.Staged(old(pull.runtime.board.d.nvs), old(store.Memory()), c.value,
                              network.mode != Network.Fault, pull.runtime.board.d.nvs, store.Memory()) &&
           (network.mode != Network.Fault ==> pendingReboot) &&
           (pull.runtime.board.sound && old(store.state) == ConfigStore.Empty ==> network.mode != Network.Fault)
    }

    /** saveConfig: a valid document against the present revision is staged and a reboot asked for; if staging fails,
        the store's state is unknown and everything stops. */
    method SaveConfig(json: seq<byte>) returns (ghost steps: seq<Protocol.Step>)
      requires Valid() && started && !uploadAllowed && network.mode == Network.Provisioning
      modifies this, network, store, pull.runtime.updater, pull.runtime.writer, pull.runtime.board
      ensures Valid() && started && Pull.Follows(Kit(), old(View()), steps, View()) && !uploadAllowed
      ensures clock == old(clock) && Apart(steps) && Saved(json)
    {
      hide Bridge.Steady, Bridge.View, Sound, Pull.Follows, Protocol.Enabled, Protocol.Next, Onboarding.Run,
           Onboarding.Inv, AllLeft, Policy.Honest, ConfigRuns.SameConfig, Json.ParseConfig, ConfigStore.Staged,
           Wifi.ValidWifi;
      steps := [];
      Pull.NoSteps(Kit(), View());
      Respond();
      var ok, candidate := JsonReader.ParseConfigText(json);
      ParsedIsValid(json);
      if !ok || candidate.revision != store.revision || store.revision == U32_MAX { return; }
      Sync();
      ghost var before := View();
      var staged;
      staged, steps := StageCandidate(candidate);
      ghost var middle := View();
      ghost var rest := FinishSave(candidate, staged);
      FollowsOn(Kit(), before, steps, middle, rest, View());
      steps := steps + rest;
    }

    /** What follows stage. */
    method FinishSave(candidate: Wifi.WifiConfig, staged: bool) returns (ghost steps: seq<Protocol.Step>)
      requires Steady() && started && !uploadAllowed && network.mode == Network.Provisioning && SwitchHonest()
      requires |trail| > 0 && Rooted(trail, moves, pull.runtime.board.log) && SamplesBefore(Last().samples, clock)
      requires Last().net == network.Value() && Last().pendingReboot == pendingReboot
      requires candidate.revision == Last().mem.revision != U32_MAX
      requires ConfigStore.Staged(Last().nvs, Last().mem, candidate, staged, pull.runtime.board.d.nvs, store.Memory())
      modifies this, network`mode, pull.runtime.updater, pull.runtime.writer
      ensures Valid() && started && Pull.Follows(Kit(), old(View()), steps, View()) && !uploadAllowed
      ensures clock == old(clock) && Apart(steps)
      ensures if staged then network.mode == old(network.mode) && pendingReboot else network.mode == Network.Fault
    {
      hide Bridge.Steady, Bridge.View, Sound, Pull.Follows, Protocol.Enabled, Protocol.Next, Rooted, Policy.Honest,
           ConfigRuns.SameConfig, ConfigStore.Staged, Bridge.Tracked;
      steps := [];
      ghost var app := Last();
      if staged {
        Pull.NoSteps(Kit(), View());
        AwaitReboot();
      } else {
        steps := Halt();
      }
      SameAsItself(pull.runtime.board.d.nvs);
      Note(Onboarding.Save(candidate, staged),
           Onboarding.App(pull.runtime.board.d.nvs, store.Memory(), network.Value(), pendingReboot, false, app.start,
               app.samples));
    }

    method AwaitReboot()
      requires Steady() && !uploadAllowed
      modifies this`pendingReboot
      ensures Steady() && pendingReboot
    {
      hide ProtocolSafety.Inv, AllSafe, Pull.Coordinator.Ready, Pull.Coordinator.View;
      pendingReboot := true;
    }

    /** stage, as a step of the protocol. */
    method StageCandidate(candidate: Wifi.WifiConfig) returns (staged: bool, ghost steps: seq<Protocol.Step>)
      requires Steady() && Tracked() && started && !uploadAllowed && Last().nvs == pull.runtime.board.d.nvs
      requires network.mode == Network.Provisioning
      modifies store, pull.runtime.board
      ensures Steady() && Pull.Follows(Kit(), old(View()), steps, View())
      ensures ConfigStore.Staged(old(pull.runtime.board.d.nvs), old(store.Memory()), candidate, staged,
                                 pull.runtime.board.d.nvs, store.Memory())
      ensures AllLeft(trail, pull.runtime.board.log) && SwitchHonest() && Apart(steps)
      ensures pull.runtime.board.sound ==> staged == ConfigStore.MayStage(old(store.Memory()), candidate)
    {
      hide ProtocolSafety.Inv, AllSafe, Sound, Pull.Follows, Protocol.Enabled, Protocol.Next, ConfigStore.Staged,
           ConfigStore.StageCut, AllLeft, Policy.Honest, OwnUpload;
      ghost var before := View();
      ghost var sys := ConfigRuns.Sys(Last().nvs, Last().mem);
      staged := store.Stage(candidate);
      OnlyRecords();
      ghost var after := ConfigRuns.Sys(pull.runtime.board.d.nvs, store.Memory());
      StoreOpTaken(Kit(), before, Last(), ConfigRuns.Stage(candidate), Network.Sample(0, false, 0), staged, after,
                   trail, old(pull.runtime.board.log), pull.runtime.board.log);
      StoreLeavesRecords(after.nvs, sys.nvs);
      Policy.SwitchStays(sys.nvs, after.nvs, policy.enabled, policy.healthy);
      steps := [Loop(DoOther(after.nvs))];
    }

    // ---- Service --------------------------------------------------------------------------------------------

    /** What the client's input asks of the update code. */
    function ClientDemand(socket: Socket, environment: bool): Demand
      reads this, store`state, network`mode, pull`busy, pull`requested, pull.runtime, pull.runtime.updater
    {
      if (pendingReboot && !responding) || !Serving(network.mode) then Silent
      else if !clientOpen && (!socket.accepted || socket.tooMany) then Silent
      else if responding then (if socket.answered then Unsaid else Silent)
      else if uploadAllowed then UploadDemand(socket)
      else RequestDemand(socket, environment)
    }

    function RequestDemand(socket: Socket, environment: bool): Demand
      reads this`started, this`pendingReboot, this`bodyAllowed, this`configBody, this`fileBody
      reads store`state, network`mode, pull`busy, pull`requested, pull.runtime
    {
      if socket.ends then Unsaid
      else if socket.overflow || !socket.complete then Silent
      else if !bodyAllowed then RouteDemand(socket.route, environment)
      else if configBody then Unsaid
      else WantsPrepare(socket.body, socket.token, if fileBody then WebFile else LegacyPush)
    }

    /** serviceHttp. */
    method ServiceHttp(now: u32, socket: Socket, environment: bool) returns (ghost steps: seq<Protocol.Step>)
      requires Valid() && started && Monitored() && now == Millis(clock)
      modifies this, network, store, policy, watch`calls, watch`parts, pull, pull.port, pull.runtime,
               pull.runtime.updater, pull.runtime.writer, pull.runtime.board
      ensures Valid() && started && Pull.Follows(Kit(), old(View()), steps, View())
      ensures Between(Flags(), View()) && clock == old(clock) && Monitored()
      ensures watch.parts == old(watch.parts) + [ClientPart(environment, socket)]
      ensures Meets(old(ClientDemand(socket, environment)), now, pull.runtime.board.sound, steps)
      ensures ClientCalls(socket, environment, steps)
      ensures old(pendingReboot && !responding) ==>
                !pendingReboot && network.mode == Network.Rebooting && network.since == now
      ensures old(uploadAllowed) && uploadAllowed ==> token == old(token) && old(pushed) <= pushed
    {
      hide Bridge.Valid, Bridge.View, Sound, Pull.Follows, Protocol.Enabled, Protocol.Next, Between, Monitored,
           Bridge.ConfirmedOnce, Bridge.RequestDemand, Bridge.UploadDemand;
      steps := [];
      Pull.NoSteps(Kit(), View());
      if pendingReboot && !responding {
        EnterReboot(now);
      } else {
        steps := ServeClient(now, socket, environment);
      }
      watch.parts := watch.parts + [ClientPart(environment, socket)];
    }

    /** The runtime is called only by a confirmation, which leaves the mode and the store's state as they were. */
    twostate predicate ClientCalls(socket: Socket, environment: bool, steps: seq<Protocol.Step>)
      reads watch`base, watch`calls, this, store`state, network`mode, pull.runtime.board`d
    {
      if old(ClientDemand(socket, environment)).WantsConfirm?
      then ConfirmedOnce(old(ClientDemand(socket, environment)).token, old(Healthy(environment))) &&
           network.mode == old(network.mode) && store.state == old(store.state)
      else Apart(steps) && watch.calls == old(watch.calls)
    }

    /** saved: the reboot begins once the answer is out. */
    method EnterReboot(now: u32)
      requires Valid() && started && pendingReboot && !responding
      modifies this`pendingReboot, this`trail, this`moves, network`mode, network`since
      ensures Valid() && Between(Flags(), View()) && View() == old(View()) && network.mode == Network.Rebooting
      ensures network.since == now && !pendingReboot
    {
      hide ProtocolSafety.Inv, AllSafe, Bridge.View, Pull.Coordinator.Ready, Rooted, Policy.Honest,
           ConfigRuns.SameConfig, OwnUpload;
      assert !uploadAllowed;
      network.mode, network.since := Network.Rebooting, now;
      pendingReboot := false;
      ghost var app := Last();
      ghost var net := app.net.(mode := Network.Rebooting, since := now);
      Note(Onboarding.EnterReboot(now), app.(pendingReboot := false, net := net));
    }

    /** There is no upload while the modes do not serve, nobody is connected, or an answer or a reboot is under way. */
    lemma QuietClient()
      requires Valid()
      ensures !Serving(network.mode) || !clientOpen || responding || pendingReboot ==>
                !uploadAllowed && Between(Flags(), View())
    {
      hide Bridge.Sane, Bridge.View, Bridge.Tracked, OwnUpload;
    }

    /** A connection, or one too many in these 10 s. */
    method AcceptClient(tooMany: bool)
      requires Valid() && !clientOpen
      modifies this`clientOpen, this`responding
      ensures Valid() && clientOpen && View() == old(View()) && responding == (old(responding) || tooMany)
      ensures Between(Flags(), View())
    {
      hide Bridge.Sane, Bridge.View, Bridge.Tracked, OwnUpload;
      clientOpen := true;
      if tooMany { responding := true; }
    }

    /** The answer is out. */
    method EndClient() returns (ghost steps: seq<Protocol.Step>)
      requires Valid()
      modifies this`uploadAllowed, this`bodyAllowed, this`configBody, this`responding, this`clientOpen,
               pull.runtime.updater, pull.runtime.writer
      ensures Valid() && Pull.Follows(Kit(), old(View()), steps, View()) && !uploadAllowed && Apart(steps)
      ensures Between(Flags(), View())
    {
      hide Bridge.Steady, Bridge.View, Bridge.Tracked, Pull.Follows;
      steps := CloseClient();
      EndsQuiet();
    }

    lemma EndsQuiet()
      requires Steady() && !uploadAllowed
      ensures Between(Flags(), View())
    {
      hide Bridge.Sane, Bridge.View, OwnUpload;
    }

    /** The one client: a new connection, its answer, its upload or its request. */
    method ServeClient(now: u32, socket: Socket, environment: bool) returns (ghost steps: seq<Protocol.Step>)
      requires Valid() && started && !(pendingReboot && !responding) && Monitored() && now == Millis(clock)
      modifies this, network, store, policy, watch`calls, pull, pull.port, pull.runtime, pull.runtime.updater,
               pull.runtime.writer, pull.runtime.board
      ensures Valid() && started && Pull.Follows(Kit(), old(View()), steps, View())
      ensures Between(Flags(), View()) && clock == old(clock) && Monitored()
      ensures Meets(old(ClientDemand(socket, environment)), now, pull.runtime.board.sound, steps)
      ensures ClientCalls(socket, environment, steps)
      ensures old(uploadAllowed) && uploadAllowed ==> token == old(token) && old(pushed) <= pushed
    {
      hide Bridge.Valid, Bridge.View, Sound, Pull.Follows, Protocol.Enabled, Protocol.Next, Between, Monitored,
           Bridge.RouteDemand, Health.Marks, Health.After;
      steps := [];
      Pull.NoSteps(Kit(), View());
      QuietClient();
      if !Serving(network.mode) { return; }
      if !clientOpen {
        if !socket.accepted { return; }
        AcceptClient(socket.tooMany);
        if socket.tooMany { return; }
      }
      if responding {
        if socket.answered { steps := EndClient(); }
        return;
      }
      if uploadAllowed {
        steps := ServeUpload(now, socket);
        return;
      }
      steps := ServeRequest(now, socket, environment);
    }

    /** Reading a request: it ends with the client, its headers, its body or a limit, or goes on. */
    method ServeRequest(now: u32, socket: Socket, environment: bool) returns (ghost steps: seq<Protocol.Step>)
      requires Valid() && started && !uploadAllowed && !responding && clientOpen && !pendingReboot &&
               Serving(network.mode) && Monitored() && now == Millis(clock)
      modifies this, network, store, policy, watch`calls, pull, pull.port, pull.runtime, pull.runtime.updater,
               pull.runtime.writer, pull.runtime.board
      ensures Valid() && started && Pull.Follows(Kit(), old(View()), steps, View())
      ensures Between(Flags(), View()) && clock == old(clock) && Monitored()
      ensures Meets(old(RequestDemand(socket, environment)), now, pull.runtime.board.sound, steps)
      ensures if old(RequestDemand(socket, environment)).WantsConfirm?
              then ConfirmedOnce(old(RequestDemand(socket, environment)).token, old(Healthy(environment))) &&
                   network.mode == old(network.mode) && store.state == old(store.state)
              else Apart(steps) && watch.calls == old(watch.calls)
      ensures old(bodyAllowed && configBody) && socket.complete && !socket.ends && !socket.overflow ==>
                Saved(socket.body)
    {
      hide Bridge.Sane, Bridge.View, Bridge.Tracked, Sound, Pull.Follows, Protocol.Enabled, Protocol.Next, Monitored,
           Bridge.ConfirmedOnce, Bridge.Healthy, Bridge.Saved;
      steps := [];
      Pull.NoSteps(Kit(), View());
      if socket.ends {
        steps := CloseClient();
      } else if socket.overflow {
        Respond();
      } else if socket.complete && bodyAllowed {
        steps := ProcessBody(socket.body, socket.token, now);
      } else if socket.complete {
        steps := HeaderGate(socket.route, environment, now);
      }
    }

    // ---- The network ----------------------------------------------------------------------------------------

    /** tick has decided on action for the state the run is in; the run has not recorded it yet. */
    ghost predicate Deciding(sample: Network.Sample, action: Network.Action)
      reads this`trail, this`moves, this`clock, this`started, this`pendingReboot
      reads network, store, policy, pull`automatic, pull.runtime.board
    {
      && |trail| > 0 && Traced(trail, moves, pull.runtime.board.d.nvs, pull.runtime.board.log) && SwitchHonest() &&
          started
      && Last().nvs == pull.runtime.board.d.nvs && Last().mem == store.Memory()
      && !pendingReboot && !Last().pendingReboot && Last().net.retry <= 60000
      && SamplesBefore(Last().samples, sample.t) && sample.t == clock
      && (network.Value(), action) == Network.Tick(Last().net, Millis(sample.t), sample.up, sample.jitter)
    }

    /** One tick of the connection machine and its action, unless a reboot is pending; true when the device resets. */
    method ServeNetwork(now: u32, up: bool, jitter: u32, radio: bool)
      returns (reset: bool, ghost steps: seq<Protocol.Step>)
      requires Valid() && started && now == Millis(clock)
      modifies this, network, store, watch`parts, pull.runtime.updater, pull.runtime.writer, pull.runtime.board
      ensures Valid() && started && Pull.Follows(Kit(), old(View()), steps, View()) && clock == old(clock)
      ensures uploadAllowed ==> old(uploadAllowed) && token == old(token) && pushed == old(pushed)
      ensures Apart(steps) && watch.parts == old(watch.parts) + [NetworkPart(up, jitter, radio)]
      ensures if old(pendingReboot) then moves == old(moves) && !reset
              else TickRecorded(Network.Sample(clock, up, jitter), radio)
      ensures reset ==> old(network.mode) == Network.Rebooting
    {
      hide Bridge.Steady, Bridge.View, Bridge.Tracked, Bridge.Deciding, Sound, Pull.Follows, Protocol.Enabled,
           Protocol.Next;
      reset, steps := false, [];
      Pull.NoSteps(Kit(), View());
      watch.parts := watch.parts + [NetworkPart(up, jitter, radio)];
      if pendingReboot { return; }
      var action := DecideTick(now, up, jitter);
      reset, steps := ApplyAction(action, Network.Sample(clock, up, jitter), now, radio);
    }

    /** The tick itself; the run is brought up to it. */
    method DecideTick(now: u32, up: bool, jitter: u32) returns (action: Network.Action)
      requires Valid() && started && now == Millis(clock) && !pendingReboot
      modifies this`trail, this`moves, network
      ensures Steady() && Deciding(Network.Sample(clock, up, jitter), action) && View() == old(View())
      ensures network.mode == old(network.mode)
      ensures action == Network.Promote || action == Network.DiscardTrial ==> network.mode == Network.Trial
      ensures action == Network.Reboot ==> network.mode == Network.Rebooting
      ensures moves == old(moves) + [Onboarding.OtherRecords(pull.runtime.board.d.nvs)]
    {
      hide ProtocolSafety.Inv, AllSafe, Pull.Coordinator.Ready, Bridge.View, Traced, Policy.Honest, OwnUpload,
           Network.Tick;
      Sync();
      TickKeepsMode(network.Value(), now, up, jitter);
      action := network.TickAt(now, up, jitter);
    }

    /** The run goes on with exactly this tick, after the records of others, unless the radio fails. */
    twostate predicate TickRecorded(sample: Network.Sample, radio: bool)
      reads this`moves
    {
      var before := old(moves);
      && |before| + 2 <= |moves| && before <= moves && moves[|before|].OtherRecords?
      && moves[|before| + 1] == Onboarding.LoopTick(sample)
      && (radio ==> |moves| == |before| + 2)
    }

    /** The run goes on with exactly this tick, unless the radio fails. */
    twostate predicate TicksOnce(sample: Network.Sample, radio: bool)
      reads this`moves
    {
      && old(moves) + [Onboarding.LoopTick(sample)] <= moves
      && (radio ==> |moves| == |old(moves)| + 1)
    }

    /** applyAction on what tick decided. */
    method ApplyAction(action: Network.Action, ghost sample: Network.Sample, now: u32, radio: bool)
      returns (reset: bool, ghost steps: seq<Protocol.Step>)
      requires Steady() && Deciding(sample, action) && now == Millis(sample.t)
      requires action == Network.Promote || action == Network.DiscardTrial ==> network.mode == Network.Trial
      modifies this, network, store, pull.runtime.updater, pull.runtime.writer, pull.runtime.board
      ensures Valid() && started && Pull.Follows(Kit(), old(View()), steps, View()) && clock == old(clock)
      ensures uploadAllowed ==> old(uploadAllowed) && token == old(token) && pushed == old(pushed)
      ensures reset <==> action == Network.Reboot
      ensures Apart(steps) && TicksOnce(sample, radio)
    {
      hide Bridge.Steady, Bridge.View, Sound, Pull.Follows, Protocol.Enabled, Protocol.Next, Rooted, Policy.Honest,
           Network.Tick, Bridge.Tracked;
      reset, steps := false, [];
      Pull.NoSteps(Kit(), View());
      if action == Network.Promote {
        steps := PromoteTrial(sample);
      } else if action == Network.DiscardTrial {
        steps := WithdrawTrial(sample, now, radio);
      } else {
        RecordTick(sample, action);
        if action == Network.Connect || action == Network.StartAp { steps := StartRadio(action, radio); }
        reset := action == Network.Reboot;
      }
    }

    /** Any other tick. */
    ghost method RecordTick(sample: Network.Sample, action: Network.Action)
      requires Deciding(sample, action) && action != Network.Promote && action != Network.DiscardTrial
      modifies this`trail, this`moves
      ensures Tracked() && started && moves == old(moves) + [Onboarding.LoopTick(sample)]
    {
      hide Rooted, Policy.Honest, Network.Tick;
      SameAsItself(pull.runtime.board.d.nvs);
      Note(Onboarding.LoopTick(sample), Last().(net := network.Value(), samples := Last().samples + [sample]));
    }

    /** Access point or station, and the server on it. */
    method StartRadio(action: Network.Action, radio: bool) returns (ghost steps: seq<Protocol.Step>)
      requires Valid() && started
      modifies this`uploadAllowed, this`bodyAllowed, this`configBody, this`responding, this`clientOpen, this`trail,
               this`moves, network`mode, pull.runtime.updater, pull.runtime.writer
      ensures Valid() && Pull.Follows(Kit(), old(View()), steps, View())
      ensures uploadAllowed ==> old(uploadAllowed) && action != Network.StartAp
      ensures network.mode == if radio then old(network.mode) else Network.Fault
      ensures Apart(steps) && old(moves) <= moves && (radio ==> moves == old(moves))
    {
      hide Bridge.Steady, Bridge.View, Bridge.Tracked, Sound, Pull.Follows, Protocol.Enabled, Protocol.Next;
      steps := [];
      Pull.NoSteps(Kit(), View());
      if !radio {
        steps := Fault();
      } else if action == Network.StartAp {
        steps := CloseClient();
      }
    }

    /** The trial configuration becomes the active one, or everything stops. */
    method PromoteTrial(ghost sample: Network.Sample) returns (ghost steps: seq<Protocol.Step>)
      requires Steady() && Deciding(sample, Network.Promote) && network.mode == Network.Trial
      modifies this, network`mode, store, pull.runtime.updater, pull.runtime.writer, pull.runtime.board
      ensures Valid() && started && Pull.Follows(Kit(), old(View()), steps, View()) && clock == old(clock)
      ensures uploadAllowed ==> old(uploadAllowed) && token == old(token) && pushed == old(pushed)
      ensures network.mode == Network.Station || network.mode == Network.Fault
      ensures pull.runtime.board.sound ==> network.mode == Network.Station
      ensures Apart(steps) && moves == old(moves) + [Onboarding.LoopTick(sample)]
    {
      hide Bridge.Steady, Bridge.View, Sound, Pull.Follows, Protocol.Enabled, Protocol.Next, Onboarding.Run,
           Onboarding.Inv, AllLeft, Policy.Honest, ConfigRuns.SameConfig, ConfigStore.Promoted, Bridge.Tracked,
           Network.Tick;
      ghost var before := View();
      TickKeepsMode(Last().net, Millis(sample.t), sample.up, sample.jitter);
      var ok;
      ok, steps := CommitTrial(sample);
      ghost var middle, rest := View(), [];
      if ok {
        Pull.NoSteps(Kit(), View());
        BecomeStation();
      } else {
        rest := Halt();
      }
      FollowsOn(Kit(), before, steps, middle, rest, View());
      steps := steps + rest;
      RecordPromotion(sample, ok);
    }

    /** The tick, as a step of the run. */
    ghost method RecordPromotion(sample: Network.Sample, ok: bool)
      requires |trail| > 0 && Rooted(trail, moves, pull.runtime.board.log) && SwitchHonest() && started &&
               !pendingReboot
      requires Onboarding.TickDecides(Last(), sample, Network.Promote) && sample.t == clock
      requires ConfigStore.Promoted(Last().nvs, Last().mem, ok, pull.runtime.board.d.nvs, store.Memory())
      requires var net := Network.Tick(Last().net, Millis(sample.t), sample.up, sample.jitter).0;
               network.Value() == net.(mode := if ok then Network.Station else Network.Fault)
      modifies this`trail, this`moves
      ensures Tracked() && moves == old(moves) + [Onboarding.LoopTick(sample)]
    {
      hide Rooted, Policy.Honest, ConfigRuns.SameConfig, ConfigStore.Promoted, Network.Tick;
      ghost var next := Last().(nvs := pull.runtime.board.d.nvs, mem := store.Memory(), net := network.Value(),
                                samples := Last().samples + [sample]);
      Onboarding.TickPromotes(Last(), sample, ok, next);
      SameAsItself(pull.runtime.board.d.nvs);
      Note(Onboarding.LoopTick(sample), next);
    }

    method BecomeStation()
      requires Steady() && network.mode == Network.Trial
      modifies network`mode
      ensures Steady() && network.mode == Network.Station && View() == old(View())
    {
      hide ProtocolSafety.Inv, AllSafe, Bridge.View, Pull.Coordinator.Ready, Slot, Own;
      network.mode := Network.Station;
    }

    /** What the store's operations on a trial ask for. */
    lemma TrialInHand(sample: Network.Sample, op: ConfigRuns.Op)
      requires network.mode == Network.Trial
      requires (op == ConfigRuns.Promote && Deciding(sample, Network.Promote)) ||
               (op == ConfigRuns.Discard && Deciding(sample, Network.DiscardTrial))
      ensures Onboarding.Started(Last(), op, sample)
      ensures store.state == ConfigStore.Trial && |store.selected| == Wifi.REFERENCE_BYTES && store.selected[0] <= 1
    {
      hide Policy.Honest, ConfigRuns.SameConfig, Onboarding.Inv, Onboarding.Run, AllLeft;
      TickKeepsMode(Last().net, Millis(sample.t), sample.up, sample.jitter);
      TrialSelected(trail, moves, pull.runtime.board.log);
    }

    /** promote, as a step of the protocol. */
    method CommitTrial(ghost sample: Network.Sample) returns (ok: bool, ghost steps: seq<Protocol.Step>)
      requires Steady() && Deciding(sample, Network.Promote) && network.mode == Network.Trial
      modifies store, pull.runtime.board
      ensures Steady() && Pull.Follows(Kit(), old(View()), steps, View())
      ensures ConfigStore.Promoted(Last().nvs, Last().mem, ok, pull.runtime.board.d.nvs, store.Memory())
      ensures AllLeft(trail, pull.runtime.board.log) && SwitchHonest()
      ensures Apart(steps) && (pull.runtime.board.sound ==> ok)
    {
      hide ProtocolSafety.Inv, AllSafe, Sound, Pull.Follows, Protocol.Enabled, Protocol.Next, ConfigStore.Promoted,
           ConfigStore.PromoteCut, AllLeft, Policy.Honest, During, Onboarding.Run, Onboarding.Inv,
           Onboarding.Started, ConfigRuns.SameConfig, Network.Tick;
      ghost var before, flags := View(), Flags();
      ghost var sys := ConfigRuns.Sys(Last().nvs, Last().mem);
      TrialInHand(sample, ConfigRuns.Promote);
      ok := store.Promote();
      OnlyRecords();
      ghost var after := ConfigRuns.Sys(pull.runtime.board.d.nvs, store.Memory());
      StoreOpTaken(Kit(), before, Last(), ConfigRuns.Promote, sample, ok, after, trail, old(pull.runtime.board.log),
                   pull.runtime.board.log);
      StoreLeavesRecords(after.nvs, sys.nvs);
      Policy.SwitchStays(sys.nvs, after.nvs, policy.enabled, policy.healthy);
      steps := [Loop(DoOther(after.nvs))];
      OtherLeavesUpload(flags, before, after.nvs);
    }

    /** The trial failed: back to provisioning, or everything stops. */
    method WithdrawTrial(ghost sample: Network.Sample, now: u32, radio: bool)
      returns (ghost steps: seq<Protocol.Step>)
      requires Steady() && Deciding(sample, Network.DiscardTrial) && network.mode == Network.Trial &&
               now == Millis(sample.t)
      modifies this, network, store, pull.runtime.updater, pull.runtime.writer, pull.runtime.board
      ensures Valid() && started && Pull.Follows(Kit(), old(View()), steps, View()) && clock == old(clock)
      ensures !uploadAllowed && (network.mode == Network.Provisioning || network.mode == Network.Fault)
      ensures pull.runtime.board.sound && radio ==> network.mode == Network.Provisioning
      ensures Apart(steps) && TicksOnce(sample, radio)
    {
      hide Bridge.Steady, Bridge.View, Bridge.Tracked, Sound, Pull.Follows, Protocol.Enabled, Protocol.Next,
           Onboarding.Run, Onboarding.Inv, AllLeft, Policy.Honest, ConfigRuns.SameConfig, ConfigStore.Discarded,
           Network.Tick, Network.Begin;
      ghost var before := View();
      TickKeepsMode(Last().net, Millis(sample.t), sample.up, sample.jitter);
      var ok;
      ok, steps := DropTrial(sample);
      ghost var middle := View();
      ghost var rest := FinishWithdrawal(sample, now, ok, radio);
      FollowsOn(Kit(), before, steps, middle, rest, View());
      steps := steps + rest;
    }

    /** What follows discardTrial. */
    method FinishWithdrawal(ghost sample: Network.Sample, now: u32, ok: bool, radio: bool)
      returns (ghost steps: seq<Protocol.Step>)
      requires Steady() && network.mode == Network.Trial && |trail| > 0 && SwitchHonest() && started && !pendingReboot
      requires Rooted(trail, moves, pull.runtime.board.log)
      requires Onboarding.TickDecides(Last(), sample, Network.DiscardTrial) && sample.t == clock &&
               now == Millis(sample.t)
      requires ConfigStore.Discarded(Last().nvs, Last().mem, ok, pull.runtime.board.d.nvs, store.Memory())
      requires network.Value() == Network.Tick(Last().net, now, sample.up, sample.jitter).0
      modifies this, network, pull.runtime.updater, pull.runtime.writer
      ensures Valid() && started && Pull.Follows(Kit(), old(View()), steps, View()) && clock == old(clock)
      ensures !uploadAllowed && network.mode == if ok && radio then Network.Provisioning else Network.Fault
      ensures Apart(steps) && TicksOnce(sample, radio)
    {
      hide Bridge.Steady, Bridge.View, Bridge.Tracked, Pull.Follows, Rooted, Policy.Honest, ConfigStore.Discarded,
           Network.Tick, Network.Begin;
      if ok {
        BeginProvisioning(now);
        RecordWithdrawal(sample, true);
        steps := StartRadio(Network.StartAp, radio);
      } else {
        steps := Halt();
        RecordWithdrawal(sample, false);
      }
    }

    ghost method RecordWithdrawal(sample: Network.Sample, ok: bool)
      requires |trail| > 0 && Rooted(trail, moves, pull.runtime.board.log) && SwitchHonest() && started &&
               !pendingReboot
      requires Onboarding.TickDecides(Last(), sample, Network.DiscardTrial) && sample.t == clock
      requires ConfigStore.Discarded(Last().nvs, Last().mem, ok, pull.runtime.board.d.nvs, store.Memory())
      requires var net := Network.Tick(Last().net, Millis(sample.t), sample.up, sample.jitter).0;
               network.Value() ==
               if ok then Network.Begin(net, ConfigStore.Empty, Millis(sample.t)).0 else net.(mode := Network.Fault)
      modifies this`trail, this`moves
      ensures Tracked() && moves == old(moves) + [Onboarding.LoopTick(sample)]
    {
      hide Rooted, Policy.Honest, ConfigRuns.SameConfig, ConfigStore.Discarded, Network.Tick, Network.Begin;
      ghost var app, nvs := Last(), pull.runtime.board.d.nvs;
      ghost var net, seen := network.Value(), app.samples + [sample];
      ghost var next := if ok then Onboarding.App(nvs, store.Memory(), net, false, false, net, [])
                        else app.(nvs := nvs, mem := store.Memory(), net := net, samples := seen);
      Onboarding.TickWithdraws(app, sample, ok, next);
      SameAsItself(nvs);
      Note(Onboarding.LoopTick(sample), next);
    }

    method BeginProvisioning(now: u32)
      requires Steady() && network.mode == Network.Trial
      modifies network
      ensures Steady() && View() == old(View()) && network.mode == Network.Provisioning
      ensures network.Value() == Network.Begin(old(network.Value()), ConfigStore.Empty, now).0
    {
      hide ProtocolSafety.Inv, AllSafe, Bridge.View, Pull.Coordinator.Ready, Slot, Own;
      var _ := network.BeginWith(ConfigStore.Empty, now);
    }

    /** discardTrial, as a step of the protocol. */
    method DropTrial(ghost sample: Network.Sample) returns (ok: bool, ghost steps: seq<Protocol.Step>)
      requires Steady() && Deciding(sample, Network.DiscardTrial) && network.mode == Network.Trial
      modifies store, pull.runtime.board
      ensures Steady() && Pull.Follows(Kit(), old(View()), steps, View())
      ensures ConfigStore.Discarded(Last().nvs, Last().mem, ok, pull.runtime.board.d.nvs, store.Memory())
      ensures AllLeft(trail, pull.runtime.board.log) && SwitchHonest()
      ensures Apart(steps) && (pull.runtime.board.sound ==> ok)
    {
      hide ProtocolSafety.Inv, AllSafe, Sound, Pull.Follows, Protocol.Enabled, Protocol.Next, ConfigStore.Discarded,
           ConfigStore.DiscardCut, AllLeft, Policy.Honest, During, Onboarding.Run, Onboarding.Inv,
           Onboarding.Started, ConfigRuns.SameConfig, Network.Tick;
      ghost var before, flags := View(), Flags();
      ghost var sys := ConfigRuns.Sys(Last().nvs, Last().mem);
      TrialInHand(sample, ConfigRuns.Discard);
      ok := store.DiscardTrial();
      OnlyRecords();
      ghost var after := ConfigRuns.Sys(pull.runtime.board.d.nvs, store.Memory());
      StoreOpTaken(Kit(), before, Last(), ConfigRuns.Discard, sample, ok, after, trail, old(pull.runtime.board.log),
                   pull.runtime.board.log);
      StoreLeavesRecords(after.nvs, sys.nvs);
      Policy.SwitchStays(sys.nvs, after.nvs, policy.enabled, policy.healthy);
      steps := [Loop(DoOther(after.nvs))];
      OtherLeavesUpload(flags, before, after.nvs);
    }

    // ---- Polls ----------------------------------------------------------------------------------------------

    /** The runtime's poll at the head of a pass, on the health of this moment; true when the device resets. */
    method PollRuntime(now: u32, environment: bool) returns (reset: bool, ghost steps: seq<Protocol.Step>)
      requires Valid() && started && Between(Flags(), View()) && Monitored() && now == Millis(clock)
      modifies watch`calls, watch`parts, pull.runtime, pull.runtime.updater, pull.runtime.writer, pull.runtime.board
      ensures if reset then Resumable()
              else Valid() && Monitored() && Pull.Follows(Kit(), old(View()), steps, View())
      ensures !reset ==> (uploadAllowed ==> !pull.busy && !pull.requested)
      ensures watch.parts == old(watch.parts) + [PollPart(environment)]
      ensures PolledOnce(environment && store.state == ConfigStore.Active && network.mode == Network.Station, reset)
      ensures !reset && old(AtRest()) ==> View() == old(View())
    {
      hide Bridge.Sane, Sound, PollRun, Pull.Follows, Protocol.Enabled, Protocol.Next, Bridge.Tracked, Monitored,
           Bridge.PolledOnce, Bridge.Resumable;
      ghost var before, flags := View(), Flags();
      ghost var mark;
      reset, steps, mark := PollNow(now, Healthy(environment));
      watch.parts := watch.parts + [PollPart(environment)];
      if reset { return; }
      PollLeavesUpload(Kit(), flags, before, now, Healthy(environment), mark);
      if old(AtRest()) {
        QuietPoll(Kit(), before.dev, now, Healthy(environment), mark);
      }
    }

    predicate AtRest()
      reads pull.runtime, pull.runtime.updater
    {
      !pull.runtime.pending && (pull.runtime.updater.phase == Idle || pull.runtime.updater.phase == Failed)
    }

    /** A poll was one call, now, on this health; it marked the image valid exactly if that call does, and reset the
        device exactly if that call asks for the rollback and it works. */
    twostate predicate PolledOnce(healthy: bool, reset: bool)
      reads watch`base, watch`calls, this`clock, pull.runtime.board`d
    {
      var before, k, id := old(watch.calls), Kit(), pull.runtime.identity;
      var prior := Health.After(k, id, watch.base, before);
      var gone := Poll(prior, Millis(clock), healthy).1 == OtaSpec.Rollback;
      |watch.calls| == |before| + 1 && before == watch.calls[..|before|] &&
      var call := watch.calls[|before|];
      call.PollCall? && call == Health.PollCall(clock, healthy, call.marks) &&
      (reset ==> gone && pull.runtime.board.d == GivenUp(old(pull.runtime.board.d))) &&
      (pull.runtime.board.sound ==> call.marks && (reset <==> gone)) &&
      pull.runtime.board.d.history ==
      old(pull.runtime.board.d.history) + if Health.Marks(k, id, prior, call) then [MarkedValid(true)] else []
    }

    /** poll, and its call noted. */
    method CallPoll(healthy: bool, now: u32) returns (reset: bool, ghost mark: MarkEnv)
      requires pull.Ready() && Shaped(View().dev) && pull.runtime.identity == Id(Kit(), View().dev)
      requires Monitored() && now == Millis(clock)
      modifies watch`calls, pull.runtime, pull.runtime.updater, pull.runtime.writer, pull.runtime.board
      ensures !reset ==> pull.Ready() && Monitored()
      ensures !reset ==> View() == old(View()).(dev := PollRun(Kit(), old(View()).dev, now, healthy, mark).0)
      ensures reset ==> |pull.runtime.board.log| > |old(pull.runtime.board.log)| &&
                        pull.runtime.board.log[|pull.runtime.board.log| - 1] == pull.runtime.board.d
      ensures OtaDevice.Within(pull.runtime.board.log, old(pull.runtime.board.log), old(pull.runtime.board.d),
                               PollRun(Kit(), old(View()).dev, now, healthy, mark).1)
      ensures PolledOnce(healthy, reset)
    {
      hide MayConfirm, OtaDevice.Within, OtaDevice.Updater.Ready, Health.Marks, Health.Apply, Health.TrialFrom, Poll,
           PollRun;
      ghost var before := View().dev;
      reset, mark := pull.runtime.PollAt(now, healthy);
      ghost var call := Health.PollCall(clock, healthy, mark.marks);
      if reset {
        NoMarkOnRollback(Kit(), before, call);
        watch.calls := watch.calls + [call];
        return;
      }
      Health.PollOfDevice(Kit(), before, clock, healthy, mark);
      NoteCall(call, before.rt);
    }

    /** poll, as a step of the protocol. */
    method PollNow(now: u32, healthy: bool) returns (reset: bool, ghost steps: seq<Protocol.Step>, ghost mark: MarkEnv)
      requires Sane() && Tracked() && started && Monitored() && now == Millis(clock)
      modifies watch`calls, pull.runtime, pull.runtime.updater, pull.runtime.writer, pull.runtime.board
      ensures Shaped(old(View()).dev) && PolledOnce(healthy, reset)
      ensures if reset then Resumable()
              else Sane() && Tracked() && Monitored() && Pull.Follows(Kit(), old(View()), steps, View()) &&
                   View() == old(View()).(dev := PollRun(Kit(), old(View()).dev, now, healthy, mark).0)
    {
      hide ProtocolSafety.Inv, AllSafe, Sound, PollRun, Pull.Follows, Protocol.Enabled, Protocol.Next,
           Pull.Coordinator.Ready, OtaRuns.Inv, OtaDevice.Within, Bridge.Tracked, LogStays, Monitored,
           Bridge.PolledOnce, Bridge.Resumable, Rooted;
      ghost var before, log := View(), pull.runtime.board.log;
      DeviceInv(Kit(), before);
      IsProper(Kit(), before.dev);
      Named();
      reset, mark := CallPoll(healthy, now);
      ghost var op := DoPoll(now, healthy, mark);
      steps := [Loop(op)];
      RuntimeOpSafe(Kit(), before.dev, op, log, pull.runtime.board.log,
                    PollRun(Kit(), before.dev, now, healthy, mark).1);
      RecordsStand();
      if reset {
        ResetResumes();
        return;
      }
      OpFollows(Kit(), before, op);
      assert View() == before.(dev := PollRun(Kit(), before.dev, now, healthy, mark).0);
      FollowsKeeps(Kit(), before, steps, View());
      PollKeepsBegun(Kit(), before.dev, now, healthy, mark);
    }

    /** A rollback's reset. */
    lemma ResetResumes()
      requires Rooted(trail, moves, pull.runtime.board.log) && AllSafe(Kit(), pull.runtime.board.log)
      requires |pull.runtime.board.log| > 0 &&
               pull.runtime.board.log[|pull.runtime.board.log| - 1] == pull.runtime.board.d
      ensures Resumable()
    {
      hide DurableInv, Onboarding.Run, Onboarding.Inv, Onboarding.LeftBy;
    }

    /** The coordinator's poll, on the health of this moment and only while no reboot waits: it serves the job that
        runs, or starts one exactly when one is due. */
    method PollPull(now: u32, environment: bool, newToken: seq<byte>, seen: Pull.Arrival)
      returns (ghost steps: seq<Protocol.Step>)
      requires Valid() && started && (uploadAllowed ==> !pull.busy && !pull.requested) && now == Millis(clock)
      modifies watch`parts, pull, pull.port, pull.runtime.updater, pull.runtime.writer, pull.runtime.board
      ensures Valid() && Pull.Follows(Kit(), old(View()), steps, View())
      ensures old(uploadAllowed) && pull.busy ==> old(pull.runtime.updater.phase) == Failed
      ensures watch.parts == old(watch.parts) + [PullPart(environment, newToken, seen)] && Pull.PollSteps(steps)
      ensures PulledOnce(now, environment && store.state == ConfigStore.Active && network.mode == Network.Station &&
                         !pendingReboot, newToken, seen, steps)
    {
      hide Bridge.Sane, Sound, Pull.Follows, Protocol.Enabled, Protocol.Next, Bridge.Tracked, Pull.Serves,
           Pull.Coordinator.MayStart;
      ghost var before, flags := View(), Flags();
      steps := PullNow(now, Healthy(environment) && !pendingReboot, newToken, seen);
      watch.parts := watch.parts + [PullPart(environment, newToken, seen)];
      PullLeavesUpload(Kit(), flags, Flags(), before, steps, View());
    }

    /** What the coordinator did: with a job it served that, without one it started one if it might. */
    twostate predicate PulledOnce(now: u32, healthy: bool, newToken: seq<byte>, seen: Pull.Arrival,
                                  steps: seq<Protocol.Step>)
    {
      if old(pull.busy)
      then Pull.Serves(steps, Elapsed(now, old(pull.started), 180000), old(pull.port.messages),
                       Elapsed(seen.sampled, old(pull.started), 180000), healthy, newToken, seen,
                       pull.runtime.board.sound)
      else steps == if old(pull.MayStart(now, healthy)) then [StartJob(true)] else []
    }

    /** poll, as steps of the protocol. */
    method PullNow(now: u32, healthy: bool, newToken: seq<byte>, seen: Pull.Arrival)
      returns (ghost steps: seq<Protocol.Step>)
      requires Sane() && Tracked() && started && (healthy ==> network.mode == Network.Station)
      modifies pull, pull.port, pull.runtime.updater, pull.runtime.writer, pull.runtime.board
      ensures Sane() && Tracked() && Shaped(View().dev) && Pull.Follows(Kit(), old(View()), steps, View())
      ensures (pull.requested ==> old(pull.requested)) && Pull.PollSteps(steps)
      ensures PulledOnce(now, healthy, newToken, seen, steps)
    {
      hide ProtocolSafety.Inv, AllSafe, Sound, Pull.Follows, Protocol.Enabled, Protocol.Next,
           OtaDevice.Runtime.Ready, OtaRuns.Inv, OtaOnly, LogOtaOnly, Rooted, Policy.Honest, ConfigRuns.SameConfig,
           Pull.Serves, Pull.Coordinator.MayStart;
      ghost var before, log := View(), pull.runtime.board.log;
      DeviceInv(Kit(), before);
      InvIsSound(Kit(), before);
      steps := pull.PollAt(now, healthy, newToken, seen);
      FollowsKeeps(Kit(), before, steps, View());
      DeviceInv(Kit(), View());
      if before.dev.begun { FollowsKeepsBegun(Kit(), before, steps, View()); }
      OtaWrote(before.dev.d.nvs, log);
    }

    /** The worker task runs for a while: callers know only what WorkerLeavesPass says of any of its runs. */
    method WorkerRuns() returns (ghost steps: seq<Protocol.Step>)
      requires Valid()
      modifies pull.port
      ensures Valid() && Pull.Follows(Kit(), old(View()), steps, View()) && WorkerOnly(steps)
      ensures View().dev == old(View()).dev && (Between(Flags(), old(View())) ==> Between(Flags(), View()))
    {
      hide Bridge.Sane, Bridge.Tracked, During;
      steps := [];
      Pull.NoSteps(Kit(), View());
    }

    /** heartbeat, and what it notes. */
    method CallBeat() returns (ghost failed: bool)
      requires pull.Ready() && Proper(View().dev) && Monitored()
      modifies watch`calls, pull.runtime
      ensures pull.Ready() && Monitored() && (pull.runtime.board.sound ==> !failed)
      ensures watch.calls == old(watch.calls) + if failed then [Health.WatchdogFault(clock)] else []
      ensures View() ==
              if failed then old(View()).(dev := Exec(Kit(), old(View()).dev, DoWatchdogFault).0) else old(View())
    {
      hide OtaDevice.Updater.Ready, Health.TrialFrom;
      ghost var before := View().dev.rt;
      failed := pull.runtime.Heartbeat();
      if failed { NoteCall(Health.WatchdogFault(clock), before); }
    }

    /** heartbeat. */
    method Beat() returns (ghost steps: seq<Protocol.Step>, ghost fault: seq<Health.Call>)
      requires Valid() && Between(Flags(), View()) && Monitored()
      modifies watch`calls, watch`parts, pull.runtime
      ensures Valid() && Between(Flags(), View()) && Pull.Follows(Kit(), old(View()), steps, View()) && Monitored()
      ensures watch.parts == old(watch.parts) + [HeartPart]
      ensures watch.calls == old(watch.calls) + fault
      ensures fault == [] || (!pull.runtime.board.sound && fault == [Health.WatchdogFault(clock)])
    {
      hide ProtocolSafety.Inv, AllSafe, Sound, Pull.Follows, Protocol.Enabled, Protocol.Next, Bridge.Tracked,
           Monitored, OtaDevice.Runtime.Ready, Exec, OwnUpload, Between, During;
      ghost var before := View();
      DeviceInv(Kit(), before);
      IsProper(Kit(), before.dev);
      watch.parts := watch.parts + [HeartPart];
      ghost var failed := CallBeat();
      steps := if failed then [Loop(DoWatchdogFault)] else [];
      fault := if failed then [Health.WatchdogFault(clock)] else [];
      if failed {
        OpFollows(Kit(), before, DoWatchdogFault);
        FaultLeavesUpload(Kit(), Flags(), before);
      } else {
        Pull.NoSteps(Kit(), before);
      }
      FollowsKeeps(Kit(), before, steps, View());
    }

    // ---- Start ----------------------------------------------------------------------------------------------

    /** startApplication, after the store: the run still ends where the boot began; mid is what the store then found. */
    ghost predicate Starting(mid: Blobs)
      reads this`trail, this`moves, this`started, this`pendingReboot, store, policy, pull`automatic, pull.runtime.board
    {
      && |trail| > 0 && Rooted(trail, moves, pull.runtime.board.log) && SwitchHonest() && !started && !pendingReboot
      && (mid == Last().nvs || mid == Last().nvs[ResetMark := ConfigStore.MARKER])
      && ConfigStore.Booted(mid, pull.runtime.board.d.nvs, store.Memory())
      && Onboarding.LeftBy(trail, pull.runtime.board.d.nvs)
    }

    /** The boot, as a step of the run. */
    ghost method RecordBoot(mid: Blobs, fault: bool, now: u32)
      requires Starting(mid)
      requires network.Value() ==
               if fault || store.state == ConfigStore.Corrupt then Network.STOPPED.(mode := Network.Fault)
               else Network.Begin(Network.STOPPED, store.state, now).0
      modifies this`trail, this`moves
      ensures |trail| > 0 && Traced(trail, moves, pull.runtime.board.d.nvs, pull.runtime.board.log) && SwitchHonest()
      ensures Mirrored() && Last().samples == []
    {
      hide Rooted, Policy.Honest, ConfigStore.Booted, ConfigRuns.SameConfig, Onboarding.LeftBy, ConfigRuns.Cut;
      ghost var nvs := pull.runtime.board.d.nvs;
      ghost var step := Onboarding.Boot(ConfigRuns.Reset, Network.Sample(0, false, 0), mid, fault, now);
      ghost var next := Onboarding.App(nvs, store.Memory(), network.Value(), false, store.state == ConfigStore.Trial,
                                       network.Value(), []);
      MarkIsReset(Last().nvs, Last().mem, mid);
      SameAsItself(nvs);
      TraceGrows(trail, moves, step, next, nvs, pull.runtime.board.log);
      trail, moves := trail + [next], moves + [step];
    }

    /** The application stops before the network starts. */
    method StopAtStart(ghost mid: Blobs, now: u32)
      requires Steady() && Starting(mid) && !uploadAllowed && network.Value() == Network.STOPPED
      modifies this`started, this`trail, this`moves, network`mode
      ensures Valid() && started && View() == old(View()) && !uploadAllowed && network.mode == Network.Fault
    {
      hide ProtocolSafety.Inv, AllSafe, Bridge.View, Pull.Coordinator.Ready, Bridge.Starting, Traced, Policy.Honest;
      network.mode := Network.Fault;
      MarkStarted(mid, true, now);
    }

    /** The store could not be opened. */
    method StopUnmounted(now: u32)
      requires Valid() && !started && !uploadAllowed
      modifies this`started, this`trail, this`moves, network`mode
      ensures Valid() && started && View() == old(View()) && !uploadAllowed && network.mode == Network.Fault
    {
      hide Bridge.Steady, Bridge.View, Rooted, Policy.Honest, ConfigStore.Booted, ConfigRuns.SameConfig,
           Onboarding.LeftBy;
      Onboarding.StuckBoot(Last().nvs);
      LeftNow(trail, Last().nvs);
      StopAtStart(Last().nvs, now);
    }

    method MarkStarted(ghost mid: Blobs, fault: bool, now: u32)
      requires Starting(mid)
      requires network.Value() ==
               if fault || store.state == ConfigStore.Corrupt then Network.STOPPED.(mode := Network.Fault)
               else Network.Begin(Network.STOPPED, store.state, now).0
      modifies this`started, this`trail, this`moves
      ensures Tracked() && started
    {
      hide Bridge.Starting, Bridge.Mirrored, Traced, Policy.Honest, Network.Begin;
      RecordBoot(mid, fault, now);
      started := true;
    }

    /** The store's part: a reset asked for or pending, then load. */
    method BootStore(resetRequested: bool) returns (usable: bool, ghost mid: Blobs, ghost steps: seq<Protocol.Step>)
      requires Valid() && !started && !uploadAllowed
      modifies store, pull.runtime.board
      ensures Steady() && Starting(mid) && Pull.Follows(Kit(), old(View()), steps, View())
      ensures usable == (store.state != ConfigStore.Corrupt) && Apart(steps)
      ensures pull.runtime.board.d == old(pull.runtime.board.d).(nvs := pull.runtime.board.d.nvs)
      ensures pull.runtime.board.sound ==>
                ConfigStore.BootedSound(old(pull.runtime.board.d.nvs), resetRequested, pull.runtime.board.d.nvs,
                                        store.Memory())
    {
      hide ProtocolSafety.Inv, AllSafe, Sound, Pull.Follows, Protocol.Enabled, Protocol.Next, ConfigStore.Booted,
           AllLeft, ConfigStore.ResetCut, ConfigStore.ResumeCut, ConfigStore.OnlyNvs, During, Bridge.View,
           ConfigStore.BootedSound, Pull.Coordinator.Ready, Onboarding.Run, Onboarding.Inv, ConfigRuns.SameConfig,
           Onboarding.LeftBy;
      ghost var before, flags, log := View(), Flags(), pull.runtime.board.log;
      ghost var nvs0 := pull.runtime.board.d.nvs;
      usable, mid := store.Boot(resetRequested);
      OnlyRecords();
      ghost var nvs := pull.runtime.board.d.nvs;
      LogIsReset(nvs0, pull.runtime.board.log, |log|, resetRequested);
      BootTaken(Kit(), before, mid, nvs, store.Memory(), trail, log, pull.runtime.board.log);
      steps := [Loop(DoOther(nvs))];
      OtherLeavesUpload(flags, before, nvs);
    }

    /** What begin decided, on the records as they are, when nothing failed. */
    twostate predicate BegunOnce(reset: bool)
      reads pull.runtime, pull.runtime.board`d
    {
      pull.runtime.board.sound ==>
        var (rt, rollback) := BeginRuntime(old(pull.runtime.Value()), pull.runtime.board.d.nvs, Kit(),
                                           pull.runtime.identity, BeginEnv(false, false));
        (reset <==> rollback) && (!reset ==> pull.runtime.Value() == rt) &&
        (reset ==> pull.runtime.board.d.boot == OtaSpec.Other(old(pull.runtime.board.d.boot)) &&
                   pull.runtime.board.d.image == Confirmed)
    }

    /** begin, from which the runtime's calls count. */
    method CallBegin() returns (reset: bool, ghost env: BeginEnv, ghost mark: MarkEnv)
      requires pull.Ready() && Shaped(View().dev) && pull.runtime.identity == Id(Kit(), View().dev)
      requires !pull.runtime.begun && Monitored() && watch.calls == []
      modifies watch`base, pull.runtime, pull.runtime.board
      ensures !reset ==> pull.Ready() && Monitored() && pull.runtime.begun
      ensures !reset ==> View() == old(View()).(dev := BeginRun(Kit(), old(View()).dev, env, mark).0)
      ensures reset ==> |pull.runtime.board.log| > |old(pull.runtime.board.log)| &&
                        pull.runtime.board.log[|pull.runtime.board.log| - 1] == pull.runtime.board.d
      ensures OtaDevice.Within(pull.runtime.board.log, old(pull.runtime.board.log), old(pull.runtime.board.d),
                               BeginRun(Kit(), old(View()).dev, env, mark).1)
      ensures pull.runtime.board.d.history == old(pull.runtime.board.d.history)
      ensures pull.runtime.board.d.nvs == old(pull.runtime.board.d.nvs) && BegunOnce(reset)
    {
      hide OtaDevice.Within, OtaDevice.Updater.Ready, BeginRuntime, Health.TrialFrom;
      ghost var before := View().dev;
      reset, env, mark := pull.runtime.BeginBoot();
      if reset { return; }
      Health.BeginKeepsTrial(before.rt, watch.armed, before.d.nvs, Kit(), pull.runtime.identity, env);
      watch.base := pull.runtime.Value();
    }

    /** Reading the records of the last attempt; true when the device resets. */
    method BeginOta(ghost mid: Blobs) returns (reset: bool, ghost steps: seq<Protocol.Step>)
      requires Steady() && Starting(mid) && !uploadAllowed && !pull.runtime.begun
      requires Monitored() && watch.calls == []
      modifies watch`base, pull.runtime, pull.runtime.board
      ensures if reset then Resumable()
              else Steady() && Starting(mid) && Pull.Follows(Kit(), old(View()), steps, View())
      ensures !reset ==> pull.runtime.begun && Monitored()
      ensures pull.runtime.board.d.history == old(pull.runtime.board.d.history)
      ensures pull.runtime.board.d.nvs == old(pull.runtime.board.d.nvs) && BegunOnce(reset)
    {
      hide ProtocolSafety.Inv, AllSafe, Sound, Pull.Follows, Protocol.Enabled, Protocol.Next, BeginRun, OtaRuns.Inv,
           Rooted, Policy.Honest, OtaDevice.Within, ConfigStore.Booted, Onboarding.LeftBy, OtaDevice.Runtime.Ready,
           During, Linked, Monitored, Bridge.BegunOnce;
      ghost var before, flags, log := View(), Flags(), pull.runtime.board.log;
      DeviceInv(Kit(), before);
      ghost var env, mark;
      Named();
      reset, env, mark := CallBegin();
      ghost var op := DoBegin(env, mark);
      steps := [Loop(op)];
      RuntimeOpSafe(Kit(), before.dev, op, log, pull.runtime.board.log, BeginRun(Kit(), before.dev, env, mark).1);
      StaysRooted(trail, moves, log, pull.runtime.board.log, before.dev.d.nvs);
      if reset {
        ResetResumes();
        return;
      }
      OpFollows(Kit(), before, op);
      assert View() == before.(dev := BeginRun(Kit(), before.dev, env, mark).0);
      FollowsKeeps(Kit(), before, steps, View());
      BeginKeepsUpdater(Kit(), before.dev, env, mark);
      DeviceInv(Kit(), View());
      NoUploadAt(flags, View());
    }

    /** startApplication; true when the device resets in it. */
    method StartApplication(start: Beginning, radio: bool, now: u32)
      returns (reset: bool, ghost steps: seq<Protocol.Step>)
      requires Valid() && !started && !uploadAllowed && !pull.runtime.begun && Monitored() && watch.calls == []
      modifies this, network, store, policy, watch`base, pull, pull.runtime, pull.runtime.updater,
               pull.runtime.writer, pull.runtime.board
      ensures if reset then Resumable() else Valid() && started && Pull.Follows(Kit(), old(View()), steps, View())
      ensures !reset ==> !uploadAllowed && Monitored()
      ensures pull.runtime.board.d.history == old(pull.runtime.board.d.history) && clock == old(clock)
      ensures StartedAs(start, radio, now, reset)
    {
      hide Bridge.Steady, Bridge.View, Bridge.Starting, Sound, Pull.Follows, Protocol.Enabled, Protocol.Next, Traced,
           Policy.Honest, Policy.Stored, ConfigStore.BootedSound, Monitored, Network.Begin, BeginRuntime;
      reset, steps := false, [];
      ghost var before := View();
      if !start.mounted {
        Pull.NoSteps(Kit(), before);
        StopUnmounted(now);
        return;
      }
      var usable;
      ghost var mid;
      usable, mid, steps := BootStore(start.held);
      if !usable {
        StopAtStart(mid, now);
        return;
      }
      ghost var middle := View();
      ghost var rest;
      reset, rest := ContinueStart(mid, start.initialised, radio, now);
      if reset { return; }
      FollowsOn(Kit(), before, steps, middle, rest, View());
      steps := steps + rest;
    }

    /** The start on a store that can be used. */
    method ContinueStart(ghost mid: Blobs, initialised: bool, radio: bool, now: u32)
      returns (reset: bool, ghost steps: seq<Protocol.Step>)
      requires Steady() && Starting(mid) && !uploadAllowed && !configBody && !pull.runtime.begun
      requires Monitored() && watch.calls == []
      requires network.Value() == Network.STOPPED && store.state != ConfigStore.Corrupt
      modifies this, network, policy, watch`base, pull`automatic, pull`scheduledAt, pull`wait, pull.runtime,
               pull.runtime.updater, pull.runtime.writer, pull.runtime.board
      ensures if reset then Resumable() else Valid() && started && Pull.Follows(Kit(), old(View()), steps, View())
      ensures !reset ==> !uploadAllowed && Monitored()
      ensures pull.runtime.board.d.history == old(pull.runtime.board.d.history) && clock == old(clock)
      ensures pull.runtime.board.d.nvs == old(pull.runtime.board.d.nvs)
      ensures pull.automatic == policy.enabled
      ensures pull.runtime.board.sound ==> policy.enabled == Policy.Stored(pull.runtime.board.d.nvs)
      ensures (reset ==> initialised) && (initialised ==> BegunOnce(reset))
      ensures !reset && initialised && radio ==>
                pull.runtime.begun && network.Value() == Network.Begin(Network.STOPPED, store.state, now).0
      ensures !reset && !(initialised && radio) ==> network.mode == Network.Fault
    {
      hide Bridge.Steady, Bridge.View, Bridge.Starting, Bridge.Tracked, Sound, Pull.Follows, Protocol.Enabled,
           Protocol.Next, Monitored, BeginRuntime, Network.Begin, Policy.Stored;
      LoadSwitch(mid, now);
      if initialised {
        reset, steps := FinishStart(mid, radio, now);
      } else {
        reset, steps := false, [];
        Pull.NoSteps(Kit(), View());
        StopAtStart(mid, now);
      }
    }

    /** The last parts of the start: the runtime's records, then the network. */
    method FinishStart(ghost mid: Blobs, radio: bool, now: u32) returns (reset: bool, ghost steps: seq<Protocol.Step>)
      requires Steady() && Starting(mid) && !uploadAllowed && !configBody && !pull.runtime.begun
      requires Monitored() && watch.calls == []
      requires network.Value() == Network.STOPPED && store.state != ConfigStore.Corrupt
      modifies this, network, watch`base, pull.runtime, pull.runtime.updater, pull.runtime.writer, pull.runtime.board
      ensures if reset then Resumable() else Valid() && started && Pull.Follows(Kit(), old(View()), steps, View())
      ensures !reset ==> !uploadAllowed && Monitored() && pull.runtime.begun
      ensures pull.runtime.board.d.history == old(pull.runtime.board.d.history) && clock == old(clock)
      ensures pull.runtime.board.d.nvs == old(pull.runtime.board.d.nvs) && BegunOnce(reset)
      ensures !reset && radio ==> network.Value() == Network.Begin(Network.STOPPED, store.state, now).0
      ensures !reset && !radio ==> network.mode == Network.Fault
    {
      hide Bridge.Steady, Bridge.View, Bridge.Starting, Bridge.Tracked, Sound, Pull.Follows, Protocol.Enabled,
           Protocol.Next, Monitored, Bridge.BegunOnce, Network.Begin;
      ghost var before := View();
      reset, steps := BeginOta(mid);
      if reset { return; }
      ghost var middle := View();
      ghost var rest := StartNetwork(mid, now, radio);
      FollowsOn(Kit(), before, steps, middle, rest, View());
      steps := steps + rest;
    }

    /** What is up after the start: everything, on the configuration and the switch as stored, unless a part of it
        failed. */
    twostate predicate StartedAs(start: Beginning, radio: bool, now: u32, reset: bool)
      reads this`started, network, store, policy, pull`automatic, pull.runtime, pull.runtime.board`d
    {
      var nvs := pull.runtime.board.d.nvs;
      if !start.mounted then !reset && network.mode == Network.Fault && nvs == old(pull.runtime.board.d.nvs)
      else
        && (pull.runtime.board.sound ==>
              ConfigStore.BootedSound(old(pull.runtime.board.d.nvs), start.held, nvs, store.Memory()))
        && (start.initialised && store.state != ConfigStore.Corrupt ==> BegunOnce(reset))
        && (reset ==> start.initialised && store.state != ConfigStore.Corrupt)
        && (!reset ==>
              if store.state == ConfigStore.Corrupt || !start.initialised || !radio then network.mode == Network.Fault
              else
                && pull.runtime.begun && pull.automatic == policy.enabled
                && network.Value() == Network.Begin(Network.STOPPED, store.state, now).0
                && (pull.runtime.board.sound ==> policy.enabled == Policy.Stored(nvs)))
    }

    /** The switch as stored decides about automatic checks. */
    method LoadSwitch(ghost mid: Blobs, now: u32)
      requires Steady() && Starting(mid)
      modifies policy, pull`automatic, pull`scheduledAt, pull`wait
      ensures Steady() && Starting(mid) && View() == old(View()) && pull.automatic == policy.enabled
      ensures pull.runtime.board.sound ==> policy.enabled == Policy.Stored(pull.runtime.board.d.nvs)
    {
      hide ProtocolSafety.Inv, AllSafe, Pull.Coordinator.Ready, Bridge.View, During, Rooted, Policy.Honest,
           ConfigStore.Booted, Onboarding.LeftBy;
      var random: u32 := *;
      ghost var r := policy.Load();
      pull.SetAutomatic(policy.enabled, now, random);
    }

    /** The network machine begins with what the store loaded. */
    method StartNetwork(ghost mid: Blobs, now: u32, radio: bool) returns (ghost steps: seq<Protocol.Step>)
      requires Steady() && Starting(mid) && !uploadAllowed && !configBody && pull.runtime.begun
      requires network.Value() == Network.STOPPED && store.state != ConfigStore.Corrupt
      modifies this, network, pull.runtime.updater, pull.runtime.writer
      ensures Valid() && started && Pull.Follows(Kit(), old(View()), steps, View()) && !uploadAllowed &&
              clock == old(clock)
      ensures if radio then network.Value() == Network.Begin(Network.STOPPED, store.state, now).0
              else network.mode == Network.Fault
    {
      hide Bridge.Steady, Bridge.View, Bridge.Starting, Bridge.Tracked, Sound, Pull.Follows, Protocol.Enabled,
           Protocol.Next;
      var action := BeginNetwork(now);
      MarkStarted(mid, false, now);
      steps := StartRadio(action, radio);
    }

    method BeginNetwork(now: u32) returns (action: Network.Action)
      requires Steady() && !uploadAllowed && !configBody && pull.runtime.begun
      modifies network
      ensures Steady() && View() == old(View())
      ensures (network.Value(), action) == Network.Begin(old(network.Value()), store.state, now)
    {
      hide ProtocolSafety.Inv, AllSafe, Bridge.View, Pull.Coordinator.Ready;
      action := network.BeginWith(store.state, now);
    }

    // ---- The pass -------------------------------------------------------------------------------------------

    /** One pass of loop(), from one state between passes to the next, with the worker task running in between its
        parts; t is the true time. In any case the device may be reset afterwards; true when it resets itself. */
    method Pass(ghost t: nat, now: u32, start: Beginning, io: Inputs)
      returns (reset: bool, ghost steps: seq<Protocol.Step>)
      requires Valid() && Between(Flags(), View()) && (!started ==> Waiting()) && now == Millis(t) && clock <= t
      requires Monitored() && Paced()
      modifies this, network, store, policy, watch, pull, pull.port, pull.runtime, pull.runtime.updater,
               pull.runtime.writer, pull.runtime.board
      ensures Resumable() && watch.armed == old(watch.armed) && Paced() && clock == t
      ensures !reset ==> Valid() && Between(Flags(), View()) && (!started ==> Waiting()) && Monitored()
      ensures !reset ==> Pull.Follows(Kit(), old(View()), steps, View())
      ensures if old(started) then Polled(io) && RolledBack(reset) && Confirmations(io) && InOrder(io, reset)
              else
                && pull.runtime.board.d.history == old(pull.runtime.board.d.history) && watch.calls == []
                && if start.undecided then !reset && !started && View() == old(View())
                   else StartedAs(start, io.radio, now, reset) && (!reset ==> started)
    {
      hide Bridge.Steady, Bridge.View, Bridge.Tracked, Bridge.Resumable, Sound, Pull.Follows, Protocol.Enabled,
           Protocol.Next, Between, Monitored, Health.After, Health.Marks, Health.Polls, Health.Regular, Health.LastPoll,
           Health.HealthyFor5s, NewMarks, BeginRuntime, ConfigStore.BootedSound, Network.Begin, Policy.Stored;
      StampClock(t);
      if started {
        reset, steps := RunPass(now, io);
      } else {
        reset, steps := AwaitStart(start, io.radio, now);
      }
      if !reset { AnyTimeResumes(); }
    }

    ghost method StampClock(t: nat)
      requires Valid() && clock <= t
      modifies this`clock
      ensures Valid() && clock == t
    {
      hide Bridge.Sane, Bridge.View, Bridge.Mirrored, During, Traced, Policy.Honest;
      clock := t;
    }

    /** Before the application starts. */
    ghost predicate Waiting()
      reads this`uploadAllowed, pull.runtime, watch`calls
    {
      !uploadAllowed && !pull.runtime.begun && watch.calls == []
    }

    /** No call lies in the future. */
    ghost predicate Paced()
      reads this`clock, watch`armed, watch`calls
    {
      Health.LastTime(watch.armed, watch.calls) <= clock && watch.armed <= clock
    }

    /** The pass polled once, on the health it found: as PolledOn says. */
    twostate predicate Polled(io: Inputs)
      reads this`clock, watch`base, watch`armed, watch`calls, pull.runtime.board`d
    {
      var healthy := io.atPoll && old(store.state) == ConfigStore.Active && old(network.mode) == Network.Station;
      var marks := NewMarks(old(pull.runtime.board.d.history), pull.runtime.board.d.history);
      && watch.base == old(watch.base)
      && PolledOn(Watched(), old(watch.calls), watch.calls, clock, healthy, pull.runtime.board.sound, marks)
      && (pull.runtime.board.sound && !io.socket.route.Confirm? && Health.OnlyPolled(old(watch.calls)) ==>
            Health.OnlyPolled(watch.calls))
    }

    /** An image still on trial 30 s after arm is given up by this pass, if the passes kept coming. */
    twostate predicate RolledBack(reset: bool)
      reads this`clock, watch`armed, watch`calls, pull.runtime.board`d
    {
      var late := old(pull.runtime.pending) && clock - watch.armed >= 30000;
      late && Health.Regular(watch.armed, watch.calls) && pull.runtime.board.sound ==>
        reset && pull.runtime.board.d == GivenUp(old(pull.runtime.board.d))
    }

    /** A request's confirmation marks the image valid only as ConfirmedOn says, on the health it finds. */
    twostate predicate Confirmations(io: Inputs)
      reads this`clock, watch`base, watch`armed, watch`calls, store`state, network`mode, pull.runtime.board`d
    {
      var healthy := io.atRequest && store.state == ConfigStore.Active && network.mode == Network.Station;
      var marks := NewMarks(old(pull.runtime.board.d.history), pull.runtime.board.d.history);
      ConfirmedOn(Watched(), watch.calls, clock, io.socket.route.Given(), healthy, marks)
    }

    /** Every part of the pass came once, in the order of loop(), on this pass's inputs. */
    twostate predicate InOrder(io: Inputs, reset: bool)
      reads watch`parts
    {
      !reset ==>
        watch.parts ==
        old(watch.parts) +
        [PollPart(io.atPoll), PullPart(io.atPull, io.token, io.seen), RebootPart,
         NetworkPart(io.up, io.jitter, io.radio), ClientPart(io.atRequest, io.socket), HeartPart]
    }

    /** The boot button is still being watched, or decides. */
    method AwaitStart(start: Beginning, radio: bool, now: u32) returns (reset: bool, ghost steps: seq<Protocol.Step>)
      requires Valid() && !started && Waiting() && Monitored()
      modifies this, network, store, policy, watch`base, pull, pull.runtime, pull.runtime.updater,
               pull.runtime.writer, pull.runtime.board
      ensures reset ==> Resumable()
      ensures !reset ==> Valid() && Between(Flags(), View()) && (!started ==> Waiting()) && Monitored()
      ensures !reset ==> Pull.Follows(Kit(), old(View()), steps, View())
      ensures pull.runtime.board.d.history == old(pull.runtime.board.d.history) && clock == old(clock)
      ensures if start.undecided then !reset && !started && View() == old(View())
              else StartedAs(start, radio, now, reset) && (!reset ==> started)
    {
      hide Bridge.Sane, Bridge.View, Bridge.Tracked, Sound, Pull.Follows, Protocol.Enabled, Protocol.Next, Monitored,
           Bridge.StartedAs;
      reset, steps := false, [];
      Pull.NoSteps(Kit(), View());
      if !start.undecided { reset, steps := StartApplication(start, radio, now); }
    }

    /** A state in which the invariant holds can be reset. */
    lemma Resumes()
      requires Sane() && Tracked()
      ensures Resumable()
    {
      hide Onboarding.Run, Onboarding.Inv, ConfigRuns.SameConfig, Onboarding.LeftBy, Policy.Honest, DurableInv,
           Linked;
      DeviceInv(Kit(), View());
      DeviceIsSafe(Kit(), View().dev);
      LeftNow(trail, pull.runtime.board.d.nvs);
    }

    method RunPass(now: u32, io: Inputs) returns (reset: bool, ghost steps: seq<Protocol.Step>)
      requires Valid() && started && Between(Flags(), View()) && now == Millis(clock) && Monitored() && Paced()
      modifies this, network, store, policy, watch`calls, watch`parts, pull, pull.port, pull.runtime,
               pull.runtime.updater, pull.runtime.writer, pull.runtime.board
      ensures reset ==> Resumable()
      ensures !reset ==> Valid() && started && Between(Flags(), View()) && Monitored()
      ensures !reset ==> Pull.Follows(Kit(), old(View()), steps, View())
      ensures Paced() && clock == old(clock)
      ensures Polled(io) && RolledBack(reset) && Confirmations(io) && InOrder(io, reset)
    {
      hide Bridge.Valid, Bridge.View, Sound, Pull.Follows, Protocol.Enabled, Protocol.Next, Between,
           Bridge.Resumable, Markings, NewMarks, PolledOn, ConfirmedOn, Health.Regular, Poll,
           Health.TrialFrom, Health.After, Health.Marks, Health.OnlyPolled, Health.Polls;
      ghost var first, calls, past := View(), watch.calls, pull.runtime.board.d.history;
      reset, steps := PollRuntime(now, io.atPoll);
      ghost var poll, middle, polled := watch.calls[|calls|], View(), pull.runtime.board.d.history;
      assert watch.calls == calls + [poll];
      ghost var confirm, fault: seq<Health.Call> := [], [];
      if !reset {
        ghost var rest;
        reset, rest, confirm, fault := RunOn(now, io);
        FollowsOn(Kit(), first, steps, middle, rest, View());
        steps := steps + rest;
      }
      assert watch.calls == calls + [poll] + confirm + fault;
      PassSumsUp(Watched(), calls, poll, confirm, fault, past, polled, pull.runtime.board.d.history,
                 pull.runtime.board.sound, io.socket.route.Given(),
                 io.atRequest && store.state == ConfigStore.Active && network.mode == Network.Station);
    }

    /** The pass after its poll. */
    method RunOn(now: u32, io: Inputs)
      returns (reset: bool, ghost steps: seq<Protocol.Step>, ghost confirm: seq<Health.Call>,
               ghost fault: seq<Health.Call>)
      requires Valid() && started && (uploadAllowed ==> !pull.busy && !pull.requested) && now == Millis(clock)
      requires Monitored()
      modifies this, network, store, policy, watch`calls, watch`parts, pull, pull.port, pull.runtime,
               pull.runtime.updater, pull.runtime.writer, pull.runtime.board
      ensures reset ==> Resumable()
      ensures !reset ==> Valid() && started && Between(Flags(), View()) && Monitored()
      ensures Pull.Follows(Kit(), old(View()), steps, View()) && clock == old(clock)
      ensures watch.calls == old(watch.calls) + confirm + fault
      ensures fault == [] || (!pull.runtime.board.sound && fault == [Health.WatchdogFault(clock)])
      ensures Asked(io, confirm)
      ensures !reset ==>
                watch.parts ==
                old(watch.parts) +
                [PullPart(io.atPull, io.token, io.seen), RebootPart, NetworkPart(io.up, io.jitter, io.radio),
                 ClientPart(io.atRequest, io.socket), HeartPart]
    {
      hide Bridge.Valid, Bridge.View, Sound, Pull.Follows, Protocol.Enabled, Protocol.Next, Between, Monitored,
           Bridge.PulledOnce, Bridge.Resumable, Markings, Health.Marks, Health.After;
      ghost var first := View();
      steps := WorkerRuns();
      ghost var middle := View();
      ViewsBoard();
      ghost var rest := PollPull(now, io.atPull, io.token, io.seen);
      ViewsBoard();
      StepsMarkNothing(Kit(), middle, rest, View());
      FollowsOn(Kit(), first, steps, middle, rest, View());
      steps := steps + rest;
      middle := View();
      reset, rest, confirm := ServeRest(now, io);
      FollowsOn(Kit(), first, steps, middle, rest, View());
      steps, fault := steps + rest, [];
      if reset {
        AnyTimeResumes();
        return;
      }
      middle := View();
      rest, fault := EndPass();
      FollowsOn(Kit(), first, steps, middle, rest, View());
      steps := steps + rest;
    }

    /** The worker once more, and heartbeat. */
    method EndPass() returns (ghost steps: seq<Protocol.Step>, ghost fault: seq<Health.Call>)
      requires Valid() && Between(Flags(), View()) && Monitored()
      modifies watch`calls, watch`parts, pull.port, pull.runtime
      ensures Valid() && Between(Flags(), View()) && Pull.Follows(Kit(), old(View()), steps, View()) && Monitored()
      ensures watch.parts == old(watch.parts) + [HeartPart]
      ensures watch.calls == old(watch.calls) + fault
      ensures fault == [] || (!pull.runtime.board.sound && fault == [Health.WatchdogFault(clock)])
    {
      hide Bridge.Valid, Bridge.View, Sound, Pull.Follows, Protocol.Enabled, Protocol.Next, Between, Monitored;
      ghost var first := View();
      steps := WorkerRuns();
      ghost var middle := View();
      ghost var rest;
      rest, fault := Beat();
      FollowsOn(Kit(), first, steps, middle, rest, View());
      steps := steps + rest;
    }

    /** At most one confirmation came from the client, now, on the health of this moment; the image was marked valid
        exactly if that call marks. */
    twostate predicate Asked(io: Inputs, confirm: seq<Health.Call>)
      reads this`clock, watch`base, watch`calls, store`state, network`mode, pull.runtime.board`d
    {
      var k, id, past := Kit(), pull.runtime.identity, Markings(old(pull.runtime.board.d.history));
      var marks := Markings(pull.runtime.board.d.history);
      if confirm == [] then marks == past
      else
        && |confirm| == 1 && confirm[0].ConfirmCall? && confirm[0].t == clock
        && io.socket.route == Confirm(confirm[0].token)
        && (confirm[0].healthy ==>
              io.atRequest && store.state == ConfigStore.Active && network.mode == Network.Station)
        && marks ==
           past +
           if Health.Marks(k, id, Health.After(k, id, watch.base, old(watch.calls)), confirm[0]) then [false] else []
    }

    lemma ViewsBoard()
      ensures View().dev.d == pull.runtime.board.d
    {
    }

    lemma AnyTimeResumes()
      requires Valid()
      ensures Resumable()
    {
      hide Bridge.Sane, Bridge.Tracked;
      Resumes();
    }

    /** rebootReady, the network and the client. */
    method ServeRest(now: u32, io: Inputs)
      returns (reset: bool, ghost steps: seq<Protocol.Step>, ghost confirm: seq<Health.Call>)
      requires Valid() && started && now == Millis(clock) && Monitored()
      modifies this, network, store, policy, watch`calls, watch`parts, pull, pull.port, pull.runtime,
               pull.runtime.updater, pull.runtime.writer, pull.runtime.board
      ensures Valid() && started && Pull.Follows(Kit(), old(View()), steps, View()) && clock == old(clock)
      ensures Monitored() && watch.calls == old(watch.calls) + confirm && Asked(io, confirm)
      ensures !reset ==> Between(Flags(), View())
      ensures !reset ==> watch.parts ==
                         old(watch.parts) +
                         [RebootPart, NetworkPart(io.up, io.jitter, io.radio), ClientPart(io.atRequest, io.socket)]
    {
      hide Bridge.Steady, Bridge.View, Bridge.Tracked, Sound, Pull.Follows, Protocol.Enabled, Protocol.Next,
           Between, During, Monitored, Markings, Health.Marks, Health.After, Bridge.TickRecorded;
      ghost var first := View();
      ViewsBoard();
      confirm := [];
      RebootIfReady();
      reset, steps := ServeNetwork(now, io.up, io.jitter, io.radio);
      StepsMarkNothing(Kit(), first, steps, View());
      ViewsBoard();
      if reset { return; }
      ghost var second := View();
      ghost var rest;
      rest, confirm := ServeDemand(now, io);
      FollowsOn(Kit(), first, steps, second, rest, View());
      steps := steps + rest;
    }

    /** The client, and what its confirmation did. */
    method ServeDemand(now: u32, io: Inputs) returns (ghost steps: seq<Protocol.Step>, ghost confirm: seq<Health.Call>)
      requires Valid() && started && now == Millis(clock) && Monitored()
      modifies this, network, store, policy, watch`calls, watch`parts, pull, pull.port, pull.runtime,
               pull.runtime.updater, pull.runtime.writer, pull.runtime.board
      ensures Valid() && started && Pull.Follows(Kit(), old(View()), steps, View()) && clock == old(clock)
      ensures Monitored() && watch.calls == old(watch.calls) + confirm && Asked(io, confirm)
      ensures Between(Flags(), View())
      ensures watch.parts == old(watch.parts) + [ClientPart(io.atRequest, io.socket)]
    {
      hide Bridge.Valid, Bridge.View, Sound, Pull.Follows, Protocol.Enabled, Protocol.Next, Between, Monitored,
           Markings, Health.Marks, Health.After;
      ghost var first, calls, past := View(), watch.calls, pull.runtime.board.d.history;
      ghost var demand := ClientDemand(io.socket, io.atRequest);
      ViewsBoard();
      steps := ServiceHttp(now, io.socket, io.atRequest);
      confirm := [];
      if demand.WantsConfirm? {
        confirm := [watch.calls[|calls|]];
        assert watch.calls == calls + confirm;
        OneMoreEvent(past, MarkedValid(false));
        assert past + [] == past;
      } else {
        StepsMarkNothing(Kit(), first, steps, View());
        ViewsBoard();
      }
    }

    /** The pull's image is selected: reboot, unless the reboot wait has begun. */
    method RebootIfReady()
      requires Valid() && started
      modifies this`pendingReboot, this`trail, this`moves, watch`parts
      ensures Valid() && View() == old(View()) && watch.parts == old(watch.parts) + [RebootPart]
      ensures pendingReboot == (old(pendingReboot) || (pull.reboot && network.mode != Network.Rebooting))
    {
      hide Bridge.Sane, Bridge.Tracked, OwnUpload, OtaDevice.Runtime.Dev;
      watch.parts := watch.parts + [RebootPart];
      if pull.reboot && network.mode != Network.Rebooting { AskReboot(); }
    }
  }

  lemma ParsedIsValid(json: seq<byte>)
    ensures Json.ParseConfig(json).Some? ==> Wifi.ValidWifi(Json.ParseConfig(json).value)
  {
    hide Json.Take, Json.FieldsFrom, Json.SkipSpace, Wifi.ValidWifi;
  }

  /** A rollback that resets marks nothing. */
  lemma NoMarkOnRollback(k: OtaSpec.Kit, s: Device, call: Health.Call)
    requires Shaped(s) && call.PollCall? && Poll(s.rt, Millis(call.t), call.healthy).1 == OtaSpec.Rollback
    ensures !Health.Marks(k, Id(k, s), s.rt, call)
  {
    hide MayConfirm, Observe;
  }

  /** A poll of a device without a trial and without a transaction in hand changes nothing. */
  lemma QuietPoll(k: OtaSpec.Kit, s: Device, now: u32, healthy: bool, mark: MarkEnv)
    requires Shaped(s) && !s.rt.pending && (s.u.phase == Idle || s.u.phase == Failed)
    ensures PollRun(k, s, now, healthy, mark).0 == s
  {
    hide MayConfirm, Observe;
  }

  lemma ConfirmIs(k: OtaSpec.Kit, s: Device, op: Op)
    requires Proper(s) && op.DoConfirm?
    ensures Exec(k, s, op).0.begun == s.begun
  {
    hide MayConfirm;
  }

  /** A request's image, whole, in the slot that was selected. */
  predicate WholeImage(s: State, length: nat, pushed: seq<byte>) {
    Shaped(s.dev) && s.dev.u.phase == RebootPending && !Own(s.dev) && |pushed| == length && Slot(s.dev) == pushed
  }

  ghost predicate SamplesBefore(samples: seq<Network.Sample>, clock: nat) {
    forall i | 0 <= i < |samples| :: samples[i].t <= clock
  }

  lemma DeviceIsSafe(k: OtaSpec.Kit, s: Device)
    requires OtaRuns.Inv(k, s)
    ensures DurableInv(k, s.d)
  {
    hide DurableInv, UpdaterInv, BootInv, RuntimeInv;
  }

  method ArmedRuntime(board: Board, kit: OtaSpec.Kit, now: u32, ghost left: Durable)
    returns (runtime: OtaDevice.Runtime, ghost env: ArmEnv)
    requires DurableInv(kit, left) && board.d == OtaRuns.Booted(left).0
    ensures fresh(runtime) && fresh(runtime.updater) && fresh(runtime.writer) && runtime.board == board
    ensures runtime.Ready() && runtime.writer.kit == kit && runtime.Dev() == PowerOn(left, now, env) && !runtime.begun
    ensures runtime.Value() == Arm(board.d.image, now, env) && (board.sound ==> env == ArmEnv(true, true))
  {
    hide DurableInv;
    BootedRuns(kit, left);
    var running := board.d.boot;
    var writer := new OtaDevice.EspWriter(board, running, kit);
    var identity := kit.ident(board.d.slots[running]);
    var updater := new OtaDevice.Updater(writer, identity.version);
    runtime := new OtaDevice.Runtime(updater, identity);
    env := runtime.ArmAt(now);
  }

  /** setup on a board the bootloader has started: everything is built and armed, and the invariant holds. */
  method SetUp(board: Board, kit: OtaSpec.Kit, ghost t: nat, now: u32, random: u32, ghost left: Durable,
      ghost states: seq<Onboarding.App>, ghost steps: seq<Onboarding.Step>)
    returns (bridge: Bridge, ghost env: ArmEnv)
    requires MayBoot(kit, left, states, steps) && board.d == OtaRuns.Booted(left).0 && board.log == [board.d]
    requires now == Millis(t)
    ensures fresh(bridge) && bridge.Valid() && Between(bridge.Flags(), bridge.View())
    ensures bridge.Kit() == kit && bridge.View().dev == PowerOn(left, now, env)
    ensures !bridge.started && bridge.Waiting() && bridge.trail == states && bridge.moves == steps
    ensures bridge.Monitored() && bridge.Paced() && bridge.watch.armed == t && bridge.clock == t
    ensures board.sound ==> env == ArmEnv(true, true)
  {
    hide DurableInv, ProtocolSafety.Inv, PowerOn, Rooted, ConfigRuns.SameConfig, AllSafe, Policy.Honest,
         OtaDevice.Runtime.Ready, OtaDevice.Runtime.Dev, Onboarding.Inv, Onboarding.Follows, Arm, Health.TrialFrom;
    BootedSafely(kit, left, board.d, states, steps);
    var runtime;
    runtime, env := ArmedRuntime(board, kit, now, left);
    Health.ArmStartsTrial(board.d.image, t, env);
    bridge := Assemble(runtime, t, now, random, states, steps);
    BootKeeps(kit, bridge.View(), left, now, env);
    DeviceInv(kit, bridge.View());
    NoUploadAt(bridge.Flags(), bridge.View());
    NotAllowed(bridge.Flags(), bridge.View());
    Policy.Untrusted(board.d.nvs);
  }

  /** All objects, at their first values. */
  method Assemble(runtime: OtaDevice.Runtime, ghost t: nat, now: u32, random: u32, ghost states: seq<Onboarding.App>,
                  ghost steps: seq<Onboarding.Step>) returns (bridge: Bridge)
    ensures fresh(bridge) && bridge.pull.runtime == runtime && bridge.trail == states && bridge.moves == steps
    ensures !bridge.started && !bridge.uploadAllowed && !bridge.configBody && !bridge.pendingReboot
    ensures bridge.store.board == runtime.board && bridge.policy.board == runtime.board
    ensures bridge.network.Value() == Network.STOPPED && bridge.store.Memory() == ConfigStore.FRESH
    ensures !bridge.policy.enabled && !bridge.policy.healthy && !bridge.pull.automatic
    ensures bridge.View() == State(Sleeping, None, 0, 0, [], [], false, false, runtime.Dev())
    ensures bridge.watch.base == runtime.Value() && bridge.watch.armed == t && bridge.watch.calls == []
    ensures bridge.clock == t
  {
    hide OtaDevice.Runtime.Dev;
    var port := new Pull.Port();
    var pull := new Pull.Coordinator(port, runtime, false);
    pull.BeginSchedule(now, random);
    var network := new Network.NetworkState();
    var store := new ConfigStore.Store(runtime.board);
    var policy := new Policy.AutomaticPolicy(runtime.board);
    var watch := new Watch(runtime.Value(), t);
    bridge := new Bridge(pull, network, store, policy, watch, states, steps, t);
  }

  /** What the bootloader changes is neither unsafe nor in NVS. */
  lemma BootedSafely(k: OtaSpec.Kit, left: Durable, d: Durable, states: seq<Onboarding.App>,
      steps: seq<Onboarding.Step>)
    requires MayBoot(k, left, states, steps) && d == OtaRuns.Booted(left).0
    ensures AllSafe(k, [d]) && Traced(states, steps, d.nvs, [d]) && d.nvs == left.nvs
  {
    hide DurableInv, Onboarding.Inv, Onboarding.Follows, ConfigRuns.SameConfig, Onboarding.LeftBy, OtaRuns.Inv;
    OtaSafety.PowerOnKeeps(k, left, 0, ArmEnv(true, true));
    DeviceIsSafe(k, PowerOn(left, 0, ArmEnv(true, true)));
    SameAsItself(d.nvs);
    LeftNow(states, d.nvs);
  }

  /** The circle closes: whenever the firmware is between passes or has reset itself, the durable state it stands on
      and every one it has passed through since the boot meet what SetUp asks for, with a run that begins where this
      one began. */
  lemma ResetBoots(bridge: Bridge, d: Durable)
    returns (states: seq<Onboarding.App>, steps: seq<Onboarding.Step>)
    requires bridge.Resumable() && (d == bridge.pull.runtime.board.d || d in bridge.pull.runtime.board.log)
    ensures MayBoot(bridge.Kit(), d, states, steps) && states[0] == bridge.trail[0]
  {
    hide DurableInv, Onboarding.Inv, Onboarding.Follows, Onboarding.LeftBy;
    states, steps := LeftMayBoot(bridge.Kit(), d, bridge.trail, bridge.moves);
  }

  /** A device that was only polled since its package went on trial, 30 s at most, is confirmed exactly once every pass
      of 5 s in a row has found it healthy. */
  lemma ConfirmedByHealth(bridge: Bridge)
    requires bridge.Monitored() && Health.OnlyPolled(bridge.watch.calls)
    requires bridge.watch.base.pending && !bridge.watch.base.fatal && bridge.watch.base.origin != LegacyPush
    requires Health.TrialPolls(bridge.watch.armed, Health.Polls(bridge.watch.calls))
    requires Matches(bridge.Kit(), bridge.pull.runtime.identity, bridge.watch.base.expected) &&
             ValidToken(bridge.watch.base.transaction)
    ensures !bridge.pull.runtime.pending <==> Health.OnceHealthyFor5s(Health.Polls(bridge.watch.calls))
    ensures !bridge.pull.runtime.pending ==> bridge.pull.runtime.state == ValidImage && !bridge.pull.runtime.fatal
  {
    hide Matches, ValidToken, Health.OnceHealthyFor5s, Health.TrialFrom, Health.TrialPolls, Health.After;
    var polls := Health.Polls(bridge.watch.calls);
    var _ := Health.ConfirmsExactly(bridge.Kit(), bridge.pull.runtime.identity, bridge.watch.base,
                                    bridge.watch.armed, polls);
  }

  /** Power may be cut at any moment: the next boot runs a baseline or a complete accepted image, and unless a read
      fails it loads a configuration or finishes the reset that was under way. */
  lemma PowerCutIsHarmless(bridge: Bridge, d: Durable)
    requires bridge.Resumable() && (d == bridge.pull.runtime.board.d || d in bridge.pull.runtime.board.log)
    ensures BootSafe(bridge.Kit(), d)
    ensures ConfigStore.ResetPending(d.nvs) ||
            ConfigStore.Load(d.nvs, ConfigStore.NO_REFERENCE).state != ConfigStore.Corrupt
  {
    hide BootSafe, ContextTracked, SelectionKept, HistoryOk, Onboarding.Follows, Onboarding.LeftBy, ConfigRuns.Agrees,
         ConfigStore.LoadFrom;
    var states, steps := ResetBoots(bridge, d);
    Onboarding.RunsStayConsistent(states, steps, |states| - 1);
    if ConfigRuns.Clean(d.nvs) { ConfigRuns.CleanLoads(d.nvs, ConfigStore.NO_REFERENCE); }
  }

  /** Through all boots: the active configuration changes only to the one on trial in that boot, after a link that was
      up for 5 s. */
  lemma PromotedOnProof(bridge: Bridge, i: nat) returns (j: nat)
    requires bridge.Resumable() && i < |bridge.moves|
    requires Onboarding.NewActive(bridge.trail[i].nvs, bridge.trail[i + 1].nvs)
    ensures var s, next := bridge.trail[i], bridge.trail[i + 1];
            s.loaded && s.mem.state == ConfigStore.Trial && next.nvs[ActiveRef] == s.mem.selected
    ensures bridge.moves[i].LoopTick? || bridge.moves[i].Boot?
    ensures Network.StableRun(bridge.trail[i].samples + [bridge.moves[i].sample], j)
  {
    hide Onboarding.Inv, Onboarding.Follows, Onboarding.NewActive;
    Onboarding.RunsStayConsistent(bridge.trail, bridge.moves, i);
    j := Onboarding.PromotionNeedsProof(bridge.trail[i], bridge.moves[i], bridge.trail[i + 1]);
  }
}
