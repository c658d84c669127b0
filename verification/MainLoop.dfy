/** The main loop's glue: one pass over the runtime, the pull coordinator, the network and one HTTP client. */
module MainLoop {
  import opened Bytes
  import opened Clock
  import opened Manifest
  import opened Hardware
  import opened OtaSpec
  import opened OtaRuns
  import opened Protocol
  import opened ProtocolSafety
  import OtaSafety
  import Chunked
  import OtaDevice
  import Pull
  import Network
  import Health

  /** What main.cpp keeps between passes about its HTTP client. token is the one the running upload consumed,
      length its Content-Length and pushed the body bytes received for it. */
  datatype Glue = Glue(uploadAllowed: bool, responding: bool, clientOpen: bool, pendingReboot: bool, requested: bool,
                       mode: Network.Mode, token: seq<byte>, length: nat, pushed: seq<byte>)

  predicate Serving(mode: Network.Mode) {
    mode == Network.Provisioning || mode == Network.Trial || mode == Network.Station
  }

  /** The open transfer is this request's: its token opened it, and its bytes are all there is. */
  predicate OwnUpload(g: Glue, s: State)
    requires Shaped(s.dev)
  {
    && !s.busy && !g.requested && !Own(s.dev)
    && s.dev.u.token == g.token && s.dev.u.manifest.imageSize == g.length
    && Slot(s.dev) == g.pushed && s.dev.u.received == |g.pushed|
  }

  /** While an upload is allowed nothing else is going on, and its transfer is open or has failed. */
  predicate During(g: Glue, s: State) {
    Shaped(s.dev) &&
    (g.uploadAllowed ==>
       && !g.pendingReboot && !g.responding && g.clientOpen && Serving(g.mode) && !s.reboot
       && (s.dev.u.phase == Failed || (s.dev.u.phase == Receiving && OwnUpload(g, s))))
  }

  /** Between passes the transfer of an allowed upload is open. */
  predicate Between(g: Glue, s: State) {
    During(g, s) && (g.uploadAllowed ==> s.dev.u.phase == Receiving)
  }

  lemma {:induction false} FollowsKeeps(k: Kit, s: State, steps: seq<Protocol.Step>, t: State)
    requires ProtocolSafety.Inv(k, s) && Pull.Follows(k, s, steps, t)
    ensures ProtocolSafety.Inv(k, t)
    decreases |steps|
  {
    hide ProtocolSafety.Inv, Protocol.Enabled, Protocol.Next, Sound;
    if |steps| > 0 {
      NextKeeps(k, s, steps[0]);
      FollowsKeeps(k, Protocol.Next(k, s, steps[0]), steps[1..], t);
    }
  }

  lemma OpFollows(k: Kit, s: State, op: Op)
    requires ProtocolSafety.Inv(k, s) && OtaRuns.Enabled(k, s.dev, op) && LoopMay(s, op)
    ensures Sound(s) && Pull.Follows(k, s, [Loop(op)], s.(dev := Exec(k, s.dev, op).0))
  {
    hide ProtocolSafety.Inv, OtaRuns.Enabled, Exec;
    InvIsSound(k, s);
    Pull.StepTaken(k, s, Loop(op), s.(dev := Exec(k, s.dev, op).0));
  }

  // ---- What each call does to an allowed upload ----------------------------------------------------------

  /** poll's tick may end the transfer; nothing else about it changes. */
  lemma PollLeavesUpload(k: Kit, g: Glue, s: State, now: u32, healthy: bool, mark: MarkEnv)
    requires Between(g, s)
    ensures var t := s.(dev := PollRun(k, s.dev, now, healthy, mark).0);
            During(g, t) && (g.uploadAllowed ==> !t.busy && !g.requested)
  {
    hide MayConfirm, Poll;
    TickFailsOnly(s.dev, now);
  }

  /** The coordinator's poll during an upload: a job starts only once the upload's transfer has failed. */
  lemma PullLeavesUpload(k: Kit, g: Glue, h: Glue, s: State, steps: seq<Protocol.Step>, t: State)
    requires During(g, s) && (g.uploadAllowed ==> !s.busy && !g.requested)
    requires Pull.Follows(k, s, steps, t) && Shaped(t.dev)
    requires !s.busy ==> steps == [] || steps == [StartJob(true)]
    requires h == g.(requested := h.requested) && (h.requested ==> g.requested)
    ensures During(h, t)
    ensures g.uploadAllowed && t.busy ==> s.dev.u.phase == Failed
    ensures g.uploadAllowed ==> t.dev == s.dev
  {
    hide Sound, CanUpdate, Slot, Own;
    if g.uploadAllowed && steps != [] {
      assert Pull.Follows(k, Protocol.Next(k, s, steps[0]), steps[1..], t);
      assert steps[1..] == [];
    }
  }

  lemma UploadsAreQuiet(g: Glue, s: State)
    requires During(g, s) && g.uploadAllowed
    ensures !g.pendingReboot && !g.responding && g.clientOpen && Serving(g.mode) && !s.reboot
  {
  }

  /** A watchdog fault leaves the upload alone. */
  lemma FaultLeavesUpload(k: Kit, g: Glue, s: State)
    requires Proper(s.dev) && Between(g, s)
    ensures var t := s.(dev := Exec(k, s.dev, DoWatchdogFault).0);
            During(g, t) && Between(g, t) && t.dev.begun == s.dev.begun
  {
  }

  /** Without an upload nothing is asked of the flags. */
  lemma NoUpload(g: Glue, h: Glue, s: State)
    requires During(g, s) && !h.uploadAllowed
    ensures During(h, s)
  {
  }

  lemma NoUploadAt(g: Glue, s: State)
    requires Shaped(s.dev) && !g.uploadAllowed
    ensures During(g, s)
  {
  }

  /** Writing other records leaves the transfer alone. */
  lemma OtherLeavesUpload(g: Glue, s: State, nvs: Blobs)
    requires During(g, s)
    ensures During(g, s.(dev := s.dev.(d := s.dev.d.(nvs := nvs))))
  {
  }

  /** A started upload begins empty, under the token that was asked for. */
  lemma StartOpensUpload(k: Kit, s: State, token: seq<byte>, size: nat, now: u32, env: StartEnv)
    requires Proper(s.dev) && !s.busy && ProtocolSafety.Inv(k, s)
    ensures var r := StartRun(k, s.dev, token, size, now, env).0;
            s.dev.u.phase == Prepared && r.u.phase == Receiving ==>
              Shaped(r) && !Own(r) && r.u.token == token && r.u.manifest.imageSize == size && r.u.received == 0 &&
                  Slot(r) == [] && !s.reboot
  {
    hide DurableInv, SignedManifest, Fenced, QueueInv, WorkerInv, TransferInv, SelectedInv, Authorize, OtaSpec.Begin,
        ValidToken;
    StartLeaves(k, s.dev, token, size, now, env);
    TickFailsOnly(s.dev, now);
  }

  /** A chunk of the request's body is appended to what the request has sent before. */
  lemma ChunkExtendsUpload(k: Kit, g: Glue, s: State, bytes: seq<byte>, now: u32, env: ChunkEnv)
    requires During(g, s) && Proper(s.dev) && g.uploadAllowed && s.dev.u.phase == Receiving
    ensures var r := ChunkRun(k, s.dev, bytes, now, env).0;
            (r.u.phase == Receiving ==> Between(g.(pushed := g.pushed + bytes), s.(dev := r))) &&
            (r.u.phase == RebootPending ==> !Own(r) && |g.pushed + bytes| == g.length && Slot(r) == g.pushed + bytes)
  {
    hide ValidToken, ChunkRun;
    ChunkLeaves(k, s.dev, bytes, now, env);
    ChunkKeepsToken(k, s.dev, bytes, now, env);
  }

  lemma ChunkKeepsToken(k: Kit, s: Device, bytes: seq<byte>, now: u32, env: ChunkEnv)
    requires Proper(s)
    ensures var r := ChunkRun(k, s, bytes, now, env).0; r.u.phase == Receiving ==> r.u.token == s.u.token
  {
    hide ValidToken, CompleteRun, Ticked;
    TickFailsOnly(s, now);
    var t := Ticked(s, now);
    if t.u.phase == Receiving && ChunkFits(t.u, |bytes|) {
      var (w, d, wrote) := Write(t.w, t.d, s.running, bytes, env);
      var next := t.(u := Progressed(t.u, |bytes|, now), w := w, d := d);
      if wrote && next.u.received == next.u.manifest.imageSize { CompleteLeaves(k, next, env); }
    }
  }

  lemma {:induction false} FollowsOn(k: Kit, s: State, a: seq<Protocol.Step>, t: State, b: seq<Protocol.Step>, u: State)
    requires Pull.Follows(k, s, a, t) && Pull.Follows(k, t, b, u)
    ensures Pull.Follows(k, s, a + b, u)
    decreases |a|
  {
    hide Sound, Protocol.Enabled, Protocol.Next;
    if |a| == 0 {
      assert a + b == b;
    } else {
      assert (a + b)[0] == a[0] && (a + b)[1..] == a[1..] + b;
      FollowsOn(k, Protocol.Next(k, s, a[0]), a[1..], t, b, u);
    }
  }

  predicate WorkerOnly(steps: seq<Protocol.Step>) {
    forall i | 0 <= i < |steps| ::
      steps[i].TakeRequest? || steps[i].OpenBody? || steps[i].ReadByte? || steps[i].Exchange? || steps[i].ReceiveAck? ||
      steps[i].GiveUp? || steps[i].PostDone?
  }

  // ---- Markings -------------------------------------------------------------------------------------------

  /** How the image was marked valid, time after time: true by a poll, false by a request. */
  function Markings(h: seq<Event>): seq<bool>
    decreases |h|
  {
    if |h| == 0 then []
    else Markings(h[..|h| - 1]) + (if h[|h| - 1].MarkedValid? then [h[|h| - 1].byPoll] else [])
  }

  /** The markings since before. */
  function NewMarks(before: seq<Event>, h: seq<Event>): seq<bool> {
    if |Markings(before)| <= |Markings(h)| then Markings(h)[|Markings(before)|..] else []
  }

  lemma NewMarksAre(before: seq<Event>, h: seq<Event>, first: seq<bool>, second: seq<bool>)
    requires Markings(h) == Markings(before) + first + second
    ensures NewMarks(before, h) == first + second
  {
    hide Markings;
  }

  lemma OneMoreEvent(h: seq<Event>, e: Event)
    ensures Markings(h + [e]) == Markings(h) + (if e.MarkedValid? then [e.byPoll] else [])
  {
    assert (h + [e])[..|h|] == h;
  }

  /** What the runtime's calls of this boot are about: the image that runs, and the runtime as arm or begin left it. */
  datatype Trial = Trial(kit: Kit, id: Identity, base: Runtime, armed: nat) {
    ghost predicate Ok() {
      base.pending ==> Health.TrialFrom(base, armed)
    }

    function After(calls: seq<Health.Call>): Runtime {
      Health.After(kit, id, base, calls)
    }

    predicate Marks(calls: seq<Health.Call>, call: Health.Call) {
      Health.Marks(kit, id, After(calls), call)
    }
  }

  /** A pass polled once, first, on this health, and marked the image valid by that poll exactly if the call does. If
      the passes kept coming this means that for 5 s up to now, with gaps below 250 ms, every pass found the device
      healthy, and that 30 s have not passed since arm. */
  ghost predicate PolledOn(trial: Trial, before: seq<Health.Call>, calls: seq<Health.Call>, t: nat, healthy: bool,
      sound: bool, marks: seq<bool>)
  {
    var polls, armed := Health.Polls(calls), trial.armed;
    && |before| < |calls| && calls[..|before|] == before
    && calls[|before|].PollCall? && calls[|before|].t == t && calls[|before|].healthy == healthy
    && (sound ==> calls[|before|].marks) && polls == Health.Polls(before) + [Health.Sample(t, healthy)]
    && (true in marks <==> trial.Marks(before, calls[|before|]))
    && (true in marks && Health.Regular(armed, calls) ==>
          t - armed < 30000 && exists j: nat :: Health.HealthyFor5s(polls, j))
    && (Health.Regular(armed, before) && t - Health.LastPoll(armed, Health.Polls(before)) < 0x1_0000_0000 - 30000 ==>
          Health.Regular(armed, calls))
  }

  /** A request marked the image valid only on a healthy device, for its transaction, within 30 s of arm, and for a
      package only after 5 s of healthy passes, if the passes kept coming. */
  ghost predicate ConfirmedOn(trial: Trial, calls: seq<Health.Call>, t: nat, token: Option<seq<byte>>, healthy: bool,
      marks: seq<bool>)
  {
    false in marks && Health.Regular(trial.armed, calls) ==>
      && healthy && token == Some(trial.base.transaction) && t - trial.armed < 30000
      && (trial.base.origin != LegacyPush ==> exists j: nat :: Health.HealthyFor5s(Health.Polls(calls), j))
  }

  /** A pass's calls, for what they mean. */
  lemma PassSumsUp(trial: Trial, calls: seq<Health.Call>, poll: Health.Call, confirm: seq<Health.Call>,
      fault: seq<Health.Call>, past: seq<Event>, polled: seq<Event>, h: seq<Event>, sound: bool,
      token: Option<seq<byte>>, healthy: bool)
    requires trial.Ok() && Health.PassCalls(poll, confirm, fault) && Health.LastTime(trial.armed, calls) <= poll.t
    requires sound ==> poll.marks
    requires polled == past + (if trial.Marks(calls, poll) then [MarkedValid(true)] else [])
    requires if |confirm| == 0 then Markings(h) == Markings(polled)
             else && token == Some(confirm[0].token) && (confirm[0].healthy ==> healthy)
                  && Markings(h) == Markings(polled) + if trial.Marks(calls + [poll], confirm[0]) then [false] else []
    ensures var all := calls + [poll] + confirm + fault;
            && Health.LastTime(trial.armed, all) == poll.t
            && (sound && confirm == [] && fault == [] && Health.OnlyPolled(calls) ==> Health.OnlyPolled(all))
            && PolledOn(trial, calls, all, poll.t, poll.healthy, sound, NewMarks(past, h))
            && ConfirmedOn(trial, all, poll.t, token, healthy, NewMarks(past, h))
            && (Health.Regular(trial.armed, all) && trial.After(calls).pending && poll.t - trial.armed >= 30000 ==>
                  Poll(trial.After(calls), Millis(poll.t), poll.healthy).1 == OtaSpec.Rollback)
  {
    hide Markings, Health.Marks, Health.After, Health.Polls, Health.Regular, Health.HealthyFor5s, Health.TrialFrom,
         Poll, Health.OnlyPolled;
    var all := calls + [poll] + confirm + fault;
    var first := if trial.Marks(calls, poll) then [true] else [];
    var second := if |confirm| == 1 && trial.Marks(calls + [poll], confirm[0]) then [false] else [];
    OneMoreEvent(past, MarkedValid(true));
    assert past + [] == past;
    assert Markings(h) == Markings(past) + first + second;
    NewMarksAre(past, h, first, second);
    assert all[..|calls|] == calls && all[|calls|] == poll;
    if sound && confirm == [] && fault == [] && Health.OnlyPolled(calls) {
      assert all == calls + [poll];
      Health.PollingsGrow(calls, poll.t, poll.healthy);
    }
    Health.PassIsRegular(trial.armed, calls, poll, confirm, fault);
    if Health.Regular(trial.armed, all) {
      Health.PassMeansHealthy(trial.kit, trial.id, trial.base, trial.armed, calls, poll, confirm, fault);
    }
  }

  /** Steps of the loop that leave the boot-time runtime alone. */
  predicate Apart(steps: seq<Protocol.Step>) {
    forall i | 0 <= i < |steps| :: steps[i].Loop? && ApartOp(steps[i].op)
  }

  predicate ApartOp(op: Op) {
    op.DoPrepare? || op.DoStart? || op.DoChunk? || op.DoTick? || op.DoInterrupt? || op.DoOther?
  }

  lemma {:induction false} StepsMarkNothing(k: Kit, s: State, steps: seq<Protocol.Step>, t: State)
    requires Pull.Follows(k, s, steps, t)
    requires forall i | 0 <= i < |steps| :: steps[i].Loop? ==> ApartOp(steps[i].op)
    ensures Markings(t.dev.d.history) == Markings(s.dev.d.history)
    decreases |steps|
  {
    hide Sound, Protocol.Enabled, Protocol.Next, Markings;
    if |steps| > 0 {
      StepMarksNothing(k, s, steps[0]);
      StepsMarkNothing(k, Protocol.Next(k, s, steps[0]), steps[1..], t);
    }
  }

  lemma StepMarksNothing(k: Kit, s: State, step: Protocol.Step)
    requires Sound(s) && Protocol.Enabled(k, s, step) && (step.Loop? ==> ApartOp(step.op))
    ensures Markings(Protocol.Next(k, s, step).dev.d.history) == Markings(s.dev.d.history)
  {
    hide Exec, Handle, Chunked.Feed, OtaRuns.Enabled, CanUpdate, Markings;
    match step
    case Loop(op) => OpMarksNothing(k, s.dev, op);
    case TakeMessage(env) => if !s.messages[0].Done? { HandleMarksNothing(k, s.dev, s.messages[0], env); }
    case _ =>
  }

  lemma HandleMarksNothing(k: Kit, s: Device, m: Message, env: TakeEnv)
    requires Proper(s)
    ensures Markings(Handle(k, s, m, env).0.d.history) == Markings(s.d.history)
  {
    hide DecodePackage, PrepareRun, StartRun, ChunkRun, PrepareAccepts, CanUpdate, Markings;
    if m.Header? {
      PrepareMarksNothing(k, s, m.bytes, env.token, GithubPull, env.now, env.fault);
      var prepared := PrepareRun(k, s, m.bytes, env.token, GithubPull, env.now, env.fault);
      if Shaped(prepared) {
        forall size: nat ensures Markings(StartRun(k, prepared, env.token, size, env.now, env.start).0.d.history) ==
                                 Markings(prepared.d.history) {
          StartMarksNothing(k, prepared, env.token, size, env.now, env.start);
        }
      }
    } else if m.Image? {
      ChunkMarksNothing(k, s, m.bytes, env.now, env.chunk);
    }
  }

  lemma OpMarksNothing(k: Kit, s: Device, op: Op)
    requires Proper(s) && ApartOp(op)
    ensures Markings(Exec(k, s, op).0.d.history) == Markings(s.d.history)
  {
    hide PrepareRun, StartRun, ChunkRun, Markings;
    match op
    case DoPrepare(bytes, token, origin, now, fault) => PrepareMarksNothing(k, s, bytes, token, origin, now, fault);
    case DoStart(token, size, now, env) => StartMarksNothing(k, s, token, size, now, env);
    case DoChunk(bytes, now, env) => ChunkMarksNothing(k, s, bytes, now, env);
    case _ =>
  }

  lemma PrepareMarksNothing(k: Kit, s: Device, bytes: seq<byte>, token: seq<byte>, origin: Origin, now: u32,
      fault: bool)
    requires Shaped(s)
    ensures var r := PrepareRun(k, s, bytes, token, origin, now, fault); Shaped(r) && r.d == s.d
  {
    hide Examine, Available, Noted, OtaSpec.Prepare;
  }

  lemma StartMarksNothing(k: Kit, s: Device, token: seq<byte>, size: nat, now: u32, env: StartEnv)
    requires Shaped(s)
    ensures Markings(StartRun(k, s, token, size, now, env).0.d.history) == Markings(s.d.history)
  {
    hide Tick, StartRefused, ReadContext, EncodeContext, Markings, ValidToken;
    var h, a := s.d.history, AttemptOf(Ticked(s, now).u);
    var c := ContextDurable(Context(a.manifest, a.transaction, a.origin));
    OneMoreEvent(h, c);
    OneMoreEvent(h, FlashBegun(a));
    OneMoreEvent(h + [c], FlashBegun(a));
  }

  lemma ChunkMarksNothing(k: Kit, s: Device, bytes: seq<byte>, now: u32, env: ChunkEnv)
    requires Proper(s)
    ensures Markings(ChunkRun(k, s, bytes, now, env).0.d.history) == Markings(s.d.history)
  {
    hide Tick, ReadContext, EncodeJournal, Markings, ValidToken, MaySelect;
    var t := Ticked(s, now);
    OneMoreEvent(s.d.history, BootSelected(AttemptOf(t.u)));
  }

  /** begin happens once. */
  lemma {:induction false} FollowsKeepsBegun(k: Kit, s: State, steps: seq<Protocol.Step>, t: State)
    requires Pull.Follows(k, s, steps, t) && s.dev.begun
    ensures t.dev.begun
    decreases |steps|
  {
    hide Sound, Protocol.Enabled, Protocol.Next;
    if |steps| > 0 {
      StepKeepsBegun(k, s, steps[0]);
      FollowsKeepsBegun(k, Protocol.Next(k, s, steps[0]), steps[1..], t);
    }
  }

  lemma StepKeepsBegun(k: Kit, s: State, step: Protocol.Step)
    requires Sound(s) && Protocol.Enabled(k, s, step) && s.dev.begun
    ensures Protocol.Next(k, s, step).dev.begun
  {
    hide Exec, Handle, Chunked.Feed, OtaRuns.Enabled, CanUpdate;
    match step
    case Loop(op) => OpKeepsBegun(k, s.dev, op);
    case TakeMessage(env) => if !s.messages[0].Done? { HandleKeepsBegun(k, s.dev, s.messages[0], env); }
    case _ =>
  }

  /** Whatever the worker task does, the loop's part of the invariant stays. */
  lemma {:induction false} WorkerLeavesPass(k: Kit, g: Glue, s: State, steps: seq<Protocol.Step>, t: State)
    requires ProtocolSafety.Inv(k, s) && During(g, s) && Pull.Follows(k, s, steps, t) && WorkerOnly(steps)
    ensures ProtocolSafety.Inv(k, t) && During(g, t) && t.dev == s.dev && (Between(g, s) ==> Between(g, t))
    decreases |steps|
  {
    hide ProtocolSafety.Inv, Sound, Protocol.Enabled, Chunked.Feed, Wanted, Outgoing;
    if |steps| > 0 {
      NextKeeps(k, s, steps[0]);
      WorkerLeavesPass(k, g, Protocol.Next(k, s, steps[0]), steps[1..], t);
    }
  }

  /** After the bootloader the boot pointer names the running slot. */
  lemma BootedRuns(k: Kit, d: Durable)
    requires DurableInv(k, d)
    ensures var (booted, running) := OtaRuns.Booted(d); running == booted.boot < 2 && |booted.slots| == 2
  {
    hide HistoryOk, Good, ContextTracked, SelectionKept;
  }

  lemma BeginKeepsUpdater(k: Kit, s: Device, env: BeginEnv, mark: MarkEnv)
    requires Shaped(s)
    ensures BeginRun(k, s, env, mark).0.begun && BeginRun(k, s, env, mark).0.u == s.u
  {
    hide BeginRuntime;
  }

  lemma TickKeepsMode(n: Network.Net, now: u32, up: bool, jitter: u32)
    requires n.retry <= 60000
    ensures var (next, action) := Network.Tick(n, now, up, jitter);
            next.mode == n.mode && next.retry <= 60000 && (action == Network.Reboot ==> n.mode == Network.Rebooting) &&
            (action == Network.Promote || action == Network.DiscardTrial ==> n.mode == Network.Trial)
  {
  }

  lemma PollKeepsBegun(k: Kit, s: Device, now: u32, healthy: bool, mark: MarkEnv)
    requires Shaped(s)
    ensures PollRun(k, s, now, healthy, mark).0.begun == s.begun
  {
    hide MayConfirm, Poll;
  }

  lemma NotAllowed(g: Glue, s: State)
    requires During(g, s) && !g.uploadAllowed
    ensures Between(g, s)
  {
  }

  lemma StillOpen(g: Glue, s: State)
    requires During(g, s) && s.dev.u.phase == Receiving
    ensures Between(g, s)
  {
  }
}
