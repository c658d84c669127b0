/** What the firmware's objects leave behind: every durable state they pass through can be booted from, as both the
    update model and the configuration model require. */
module Trail {
  import opened Bytes
  import opened Manifest
  import opened Hardware
  import opened OtaSpec
  import opened OtaRuns
  import opened Protocol
  import opened ProtocolSafety
  import OtaSafety
  import OtaDevice
  import Pull
  import MainLoop
  import ConfigStore
  import ConfigRuns
  import Network
  import Onboarding
  import Policy
  import Wifi

  ghost predicate AllLeft(states: seq<Onboarding.App>, log: seq<Durable>) {
    forall i | 0 <= i < |log| :: Onboarding.LeftBy(states, log[i].nvs)
  }

  /** A run of the configuration model that leaves every listed durable state. */
  ghost predicate Rooted(states: seq<Onboarding.App>, steps: seq<Onboarding.Step>, log: seq<Durable>) {
    Onboarding.Run(states, steps) && Onboarding.Inv(states[0]) && AllLeft(states, log)
  }

  /** And that ends at nvs. */
  ghost predicate Traced(states: seq<Onboarding.App>, steps: seq<Onboarding.Step>, nvs: Blobs, log: seq<Durable>) {
    Rooted(states, steps, log) && ConfigRuns.SameConfig(states[|states| - 1].nvs, nvs)
  }

  /** What a boot finds: a safe state for the updater, at the end of a run of the configuration model. */
  ghost predicate MayBoot(k: Kit, left: Durable, states: seq<Onboarding.App>, steps: seq<Onboarding.Step>) {
    && DurableInv(k, left)
    && Onboarding.Run(states, steps) && Onboarding.Inv(states[0]) && states[|states| - 1].nvs == left.nvs
  }

  /** A factory board with a configuration store that is clean, such as an empty one. */
  lemma FactoryMayBoot(k: Kit, d: Durable)
    requires Factory(k, d) && ConfigRuns.Clean(d.nvs)
    ensures MayBoot(k, d, [Onboarding.Stuck(d.nvs)], [])
  {
    hide DurableInv, Factory, ConfigRuns.Clean;
    OtaSafety.FactoryIsSafe(k, d);
  }

  /** A reset at a safe durable state that the run leaves. */
  lemma LeftMayBoot(k: Kit, d: Durable, states: seq<Onboarding.App>, steps: seq<Onboarding.Step>)
    returns (states': seq<Onboarding.App>, steps': seq<Onboarding.Step>)
    requires DurableInv(k, d) && Onboarding.Run(states, steps) && Onboarding.Inv(states[0])
    requires Onboarding.LeftBy(states, d.nvs)
    ensures MayBoot(k, d, states', steps') && states'[0] == states[0]
  {
    hide DurableInv, Onboarding.Inv, Onboarding.LeftBy, Onboarding.Follows;
    states', steps' := Onboarding.ResetContinues(states, steps, d.nvs);
  }

  lemma MoreLeft(states: seq<Onboarding.App>, next: Onboarding.App, nvs: Blobs)
    requires Onboarding.LeftBy(states, nvs)
    ensures Onboarding.LeftBy(states + [next], nvs)
  {
    hide Onboarding.Leaves;
    var j :| 0 <= j < |states| && Onboarding.Leaves(states[j], nvs);
    assert (states + [next])[j] == states[j];
  }

  /** One more step of the run. */
  lemma TraceGrows(states: seq<Onboarding.App>, steps: seq<Onboarding.Step>, step: Onboarding.Step,
      next: Onboarding.App,
                   nvs: Blobs, log: seq<Durable>)
    requires Rooted(states, steps, log)
    requires Onboarding.Follows(states[|states| - 1], step, next) && ConfigRuns.SameConfig(next.nvs, nvs)
    ensures Traced(states + [next], steps + [step], nvs, log)
  {
    hide Onboarding.Inv, Onboarding.Follows, Onboarding.LeftBy, ConfigRuns.SameConfig;
    Onboarding.RunExtends(states, steps, step, next);
    forall i | 0 <= i < |log| ensures Onboarding.LeftBy(states + [next], log[i].nvs) { MoreLeft(states, next,
        log[i].nvs); }
  }

  lemma SameAsItself(nvs: Blobs)
    ensures ConfigRuns.SameConfig(nvs, nvs)
  {
  }

  lemma LeftNow(states: seq<Onboarding.App>, nvs: Blobs)
    requires |states| > 0 && ConfigRuns.SameConfig(states[|states| - 1].nvs, nvs)
    ensures Onboarding.LeftBy(states, nvs)
  {
    hide ConfigRuns.SameConfig;
    assert Onboarding.Leaves(states[|states| - 1], nvs);
  }

  /** The update code's writes leave the run where it is. */
  lemma OtaTraced(states: seq<Onboarding.App>, steps: seq<Onboarding.Step>, nvs: Blobs, log: seq<Durable>, nvs': Blobs,
                  log': seq<Durable>)
    requires Traced(states, steps, nvs, log) && OtaOnly(nvs, nvs') && LogOtaOnly(log, log', nvs)
    ensures Traced(states, steps, nvs', log')
  {
    hide Onboarding.Inv, Onboarding.Follows, Onboarding.LeftBy;
    forall i | 0 <= i < |log'| ensures Onboarding.LeftBy(states, log'[i].nvs) {
      if i < |log| { assert log'[i] == log[i]; } else { LeftNow(states, log'[i].nvs); }
    }
  }

  /** A store operation's durable states are left by the state it started in. */
  lemma CutsLeft(states: seq<Onboarding.App>, op: ConfigRuns.Op, sample: Network.Sample, before: seq<Durable>,
      log: seq<Durable>)
    requires |states| > 0 && AllLeft(states, before) && before <= log
    requires var s := states[|states| - 1];
             Onboarding.Started(s, op, sample) &&
             forall i | |before| <= i < |log| :: ConfigRuns.Cut(ConfigRuns.Sys(s.nvs, s.mem), op, log[i].nvs)
    ensures AllLeft(states, log)
  {
    hide Onboarding.Started, ConfigRuns.Cut, ConfigRuns.SameConfig;
    forall i | 0 <= i < |log| ensures Onboarding.LeftBy(states, log[i].nvs) {
      if i < |before| { assert log[i] == before[i]; } else { assert Onboarding.Leaves(states[|states| - 1],
          log[i].nvs); }
    }
  }

  // ---- The same writes, as the update device sees them --------------------------------------------------------

  /** Since before, only states with these records. */
  predicate LogStays(before: seq<Durable>, log: seq<Durable>, nvs: Blobs) {
    before <= log && forall i | |before| <= i < |log| :: log[i].nvs == nvs
  }

  /** Whatever poll, confirm and begin list is safe, and no record is touched. */
  lemma RuntimeOpSafe(k: Kit, s: Device, op: Op, before: seq<Durable>, log: seq<Durable>, cuts: seq<Durable>)
    requires OtaRuns.Inv(k, s) && OtaRuns.Enabled(k, s, op) && (op.DoPoll? || op.DoConfirm? || op.DoBegin?)
    requires AllSafe(k, before) && OtaDevice.Within(log, before, s.d, cuts)
    requires forall d | d in cuts :: d in Exec(k, s, op).1 || d == Exec(k, s, op).0.d
    ensures AllSafe(k, log) && LogStays(before, log, s.d.nvs) && Exec(k, s, op).0.d.nvs == s.d.nvs
  {
    hide OtaRuns.Inv, Exec, OtaRuns.Enabled, AllSafe, OtaSafety.Kept, LogOtaOnly;
    IsProper(k, s);
    OtaSafety.ExecKeeps(k, s, op);
    OtaSafety.RuntimeTouchesNothing(k, s, op);
    OtaDevice.NothingDiffers(s.d.nvs);
    OtaDevice.LogStaysSafe(k, s, Exec(k, s, op), before, log, cuts);
  }

  lemma StaysRooted(states: seq<Onboarding.App>, steps: seq<Onboarding.Step>, before: seq<Durable>, log: seq<Durable>,
      nvs: Blobs)
    requires Rooted(states, steps, before) && LogStays(before, log, nvs) && Onboarding.LeftBy(states, nvs)
    ensures Rooted(states, steps, log)
  {
    hide Onboarding.Inv, Onboarding.Run, Onboarding.LeftBy;
    forall i | 0 <= i < |log| ensures Onboarding.LeftBy(states, log[i].nvs) {
      if i < |before| { assert log[i] == before[i]; }
    }
  }

  lemma IsProper(k: Kit, s: Device)
    requires OtaRuns.Inv(k, s)
    ensures Proper(s)
  {
    hide DurableInv, BootInv, RuntimeInv, SignedManifest, Fenced;
  }

  lemma DeviceInv(k: Kit, s: State)
    requires ProtocolSafety.Inv(k, s)
    ensures OtaRuns.Inv(k, s.dev) && Shaped(s.dev)
  {
    hide OtaRuns.DurableInv, UpdaterInv, BootInv, RuntimeInv, QueueInv, WorkerInv, TransferInv, SelectedInv;
  }

  /** Writes that leave the update records alone, as one step of the protocol. */
  lemma OtherFollows(k: Kit, s: State, nvs: Blobs)
    requires ProtocolSafety.Inv(k, s) && SameRecords(nvs, s.dev.d.nvs)
    ensures var t := s.(dev := s.dev.(d := s.dev.d.(nvs := nvs)));
            Pull.Follows(k, s, [Loop(DoOther(nvs))], t) && ProtocolSafety.Inv(k, t)
  {
    hide ProtocolSafety.Inv, SameRecords, Sound, Pull.Follows, Protocol.Enabled, Protocol.Next;
    var t := s.(dev := s.dev.(d := s.dev.d.(nvs := nvs)));
    InvIsSound(k, s);
    MainLoop.OpFollows(k, s, DoOther(nvs));
    MainLoop.FollowsKeeps(k, s, [Loop(DoOther(nvs))], t);
  }

  /** And the durable states on the way are safe. */
  lemma OtherSafe(k: Kit, s: Device, before: seq<Durable>, log: seq<Durable>)
    requires OtaRuns.Inv(k, s) && AllSafe(k, before) && before <= log
    requires ConfigStore.OnlyNvs(s.d, log, |before|)
    requires forall i | |before| <= i < |log| :: SameRecords(log[i].nvs, s.d.nvs)
    ensures AllSafe(k, log)
  {
    hide OtaRuns.Inv, DurableInv, SameRecords, OtaSafety.SlotsKept, ValidToken;
    IsProper(k, s);
    forall i | 0 <= i < |log| ensures DurableInv(k, log[i]) {
      if i < |before| {
        assert log[i] == before[i];
      } else {
        OtaSafety.OtherKeeps(k, s, log[i].nvs);
        assert log[i] == s.d.(nvs := log[i].nvs) && OtaSafety.GoodCut(k, s, log[i]);
      }
    }
  }

  /** The store's running operations write neither the update records nor the automatic switch. */
  predicate StoreOnly(a: Blobs, b: Blobs) {
    forall key | key == Ota || key == OtaContext || key == GhAuto :: (key in a <==> key in b) && (key in a ==>
        a[key] == b[key])
  }

  lemma CutTouches(s: ConfigRuns.Sys, op: ConfigRuns.Op, cut: Blobs)
    requires ConfigRuns.Cut(s, op, cut) && op != ConfigRuns.Reset
    ensures StoreOnly(cut, s.nvs)
  {
    hide ConfigStore.MayStage, Wifi.EncodeConfig, Wifi.Reference;
  }

  lemma ReturnTouches(s: ConfigRuns.Sys, op: ConfigRuns.Op, ok: bool, s': ConfigRuns.Sys)
    requires ConfigRuns.Returned(s, op, ok, s') && op != ConfigRuns.Reset
    ensures StoreOnly(s'.nvs, s.nvs)
  {
    hide ConfigStore.MayStage, Wifi.EncodeConfig, Wifi.Reference;
  }

  /** A reset wipes more, but not the update records. */
  lemma ResetTouches(nvs: Blobs, cut: Blobs)
    requires ConfigStore.ResetCut(nvs, cut)
    ensures SameRecords(cut, nvs)
  {
    hide ConfigStore.Wiped;
    var marked := nvs[ResetMark := ConfigStore.MARKER];
    if cut != nvs && cut != marked {
      var k :| 0 <= k <= |ConfigStore.WIPED| && cut == ConfigStore.Wiped(marked, k);
      ConfigRuns.WipedKeys(marked, k);
    }
  }

  lemma ResumeIsReset(nvs: Blobs, cut: Blobs)
    requires ConfigStore.ResumeCut(nvs, cut)
    ensures ConfigStore.ResetCut(nvs, cut)
  {
    hide ConfigStore.Wiped;
    if cut != nvs { assert nvs[ResetMark := ConfigStore.MARKER] == nvs; }
  }

  lemma LogIsReset(nvs: Blobs, log: seq<Durable>, start: nat, asked: bool)
    requires forall i | start <= i < |log| ::
               if asked then ConfigStore.ResetCut(nvs, log[i].nvs) else ConfigStore.ResumeCut(nvs, log[i].nvs)
    ensures forall i | start <= i < |log| :: ConfigStore.ResetCut(nvs, log[i].nvs)
  {
    hide ConfigStore.ResetCut, ConfigStore.ResumeCut;
    forall i | start <= i < |log| ensures ConfigStore.ResetCut(nvs, log[i].nvs) {
      if !asked { ResumeIsReset(nvs, log[i].nvs); }
    }
  }

  /** Where a boot ends up is a state some reset passes through. */
  lemma BootIsReset(nvs: Blobs, mid: Blobs, nvs': Blobs, m: ConfigStore.Mem)
    requires mid == nvs || mid == nvs[ResetMark := ConfigStore.MARKER]
    requires ConfigStore.Booted(mid, nvs', m)
    ensures ConfigStore.ResetCut(nvs, nvs')
  {
    hide ConfigStore.Wiped, ConfigStore.Load;
    if nvs' != mid {
      assert mid[ResetMark := ConfigStore.MARKER] == mid;
      assert mid == nvs[ResetMark := ConfigStore.MARKER];
    }
  }

  /** A running store operation that returned, for all three views: the update device took one step, every durable state
      on the way may be booted, and the run can record the operation. */
  lemma StoreOpTaken(k: Kit, s: State, app: Onboarding.App, op: ConfigRuns.Op, sample: Network.Sample, ok: bool,
                     after: ConfigRuns.Sys, trail: seq<Onboarding.App>, before: seq<Durable>, log: seq<Durable>)
    requires ProtocolSafety.Inv(k, s) && AllSafe(k, before) && AllLeft(trail, before) && before <= log
    requires |trail| > 0 && app == trail[|trail| - 1] && app.nvs == s.dev.d.nvs
    requires op != ConfigRuns.Reset && Onboarding.Started(app, op, sample)
    requires ConfigRuns.Returned(ConfigRuns.Sys(app.nvs, app.mem), op, ok, after)
    requires ConfigStore.OnlyNvs(s.dev.d, log, |before|)
    requires forall i | |before| <= i < |log| :: ConfigRuns.Cut(ConfigRuns.Sys(app.nvs, app.mem), op, log[i].nvs)
    ensures AllSafe(k, log) && AllLeft(trail, log) && StoreOnly(after.nvs, app.nvs)
    ensures var t := s.(dev := s.dev.(d := s.dev.d.(nvs := after.nvs)));
            Pull.Follows(k, s, [Loop(DoOther(after.nvs))], t) && ProtocolSafety.Inv(k, t)
  {
    hide ProtocolSafety.Inv, AllSafe, AllLeft, ConfigRuns.Cut, ConfigRuns.Returned, Onboarding.Started,
         Pull.Follows, Protocol.Enabled, Protocol.Next, StoreOnly, SameRecords;
    var sys := ConfigRuns.Sys(app.nvs, app.mem);
    CutsLeft(trail, op, sample, before, log);
    forall i | |before| <= i < |log| ensures SameRecords(log[i].nvs, s.dev.d.nvs) {
      CutTouches(sys, op, log[i].nvs);
      StoreLeavesRecords(log[i].nvs, sys.nvs);
    }
    DeviceInv(k, s);
    OtherSafe(k, s.dev, before, log);
    ReturnTouches(sys, op, ok, after);
    StoreLeavesRecords(after.nvs, sys.nvs);
    OtherFollows(k, s, after.nvs);
  }

  /** While the trial's mode lasts, the store holds the trial's reference. */
  lemma TrialSelected(states: seq<Onboarding.App>, steps: seq<Onboarding.Step>, log: seq<Durable>)
    requires Rooted(states, steps, log) && states[|states| - 1].net.mode == Network.Trial
    ensures var m := states[|states| - 1].mem;
            m.state == ConfigStore.Trial && |m.selected| == Wifi.REFERENCE_BYTES && m.selected[0] <= 1
  {
    hide Onboarding.Follows, AllLeft, ConfigRuns.Agrees, ConfigRuns.Clean;
    Onboarding.RunsStayConsistent(states, steps, |states| - 1);
    ConfigRuns.TrialErased(states[|states| - 1].nvs, states[|states| - 1].mem);
  }

  lemma StoreLeavesRecords(a: Blobs, b: Blobs)
    requires StoreOnly(a, b)
    ensures SameRecords(a, b) && ((GhAuto in a <==> GhAuto in b) && (GhAuto in a ==> a[GhAuto] == b[GhAuto]))
  {
  }

  /** Writing the automatic switch, likewise. */
  lemma SwitchTaken(k: Kit, s: State, nvs: Blobs, bytes: seq<byte>, states: seq<Onboarding.App>,
                    steps: seq<Onboarding.Step>, before: seq<Durable>, log: seq<Durable>)
    requires ProtocolSafety.Inv(k, s) && AllSafe(k, before) && Traced(states, steps, s.dev.d.nvs, before)
    requires nvs == s.dev.d.nvs || nvs == s.dev.d.nvs[GhAuto := bytes]
    requires log == before || log == before + [s.dev.d.(nvs := nvs)]
    ensures AllSafe(k, log) && Traced(states, steps, nvs, log)
    ensures var t := s.(dev := s.dev.(d := s.dev.d.(nvs := nvs)));
            Pull.Follows(k, s, [Loop(DoOther(nvs))], t) && ProtocolSafety.Inv(k, t)
  {
    hide ProtocolSafety.Inv, OtaRuns.Inv, DurableInv, Onboarding.Inv, Onboarding.Follows, Onboarding.LeftBy,
         Pull.Follows, Protocol.Enabled, Protocol.Next;
    DeviceInv(k, s);
    OtherSafe(k, s.dev, before, log);
    OtherFollows(k, s, nvs);
    assert ConfigRuns.SameConfig(states[|states| - 1].nvs, nvs);
    forall i | 0 <= i < |log| ensures Onboarding.LeftBy(states, log[i].nvs) {
      if i < |before| { assert log[i] == before[i]; } else { LeftNow(states, log[i].nvs); }
    }
  }

  /** The store's part of a boot: a reset asked for or pending, and the load. */
  lemma BootTaken(k: Kit, s: State, mid: Blobs, nvs: Blobs, m: ConfigStore.Mem, trail: seq<Onboarding.App>,
                  before: seq<Durable>, log: seq<Durable>)
    requires ProtocolSafety.Inv(k, s) && AllSafe(k, before) && AllLeft(trail, before) && before <= log
    requires |trail| > 0 && trail[|trail| - 1].nvs == s.dev.d.nvs
    requires mid == s.dev.d.nvs || mid == s.dev.d.nvs[ResetMark := ConfigStore.MARKER]
    requires ConfigStore.Booted(mid, nvs, m)
    requires ConfigStore.OnlyNvs(s.dev.d, log, |before|)
    requires forall i | |before| <= i < |log| :: ConfigStore.ResetCut(s.dev.d.nvs, log[i].nvs)
    ensures AllSafe(k, log) && AllLeft(trail, log) && Onboarding.LeftBy(trail, nvs)
    ensures var t := s.(dev := s.dev.(d := s.dev.d.(nvs := nvs)));
            Pull.Follows(k, s, [Loop(DoOther(nvs))], t) && ProtocolSafety.Inv(k, t)
  {
    hide ProtocolSafety.Inv, AllSafe, AllLeft, ConfigStore.ResetCut, ConfigStore.Booted, Pull.Follows,
         Protocol.Enabled, Protocol.Next, SameRecords, ConfigRuns.SameConfig;
    CutsLeft(trail, ConfigRuns.Reset, Network.Sample(0, false, 0), before, log);
    forall i | |before| <= i < |log| ensures SameRecords(log[i].nvs, s.dev.d.nvs) { ResetTouches(s.dev.d.nvs,
        log[i].nvs); }
    DeviceInv(k, s);
    OtherSafe(k, s.dev, before, log);
    BootIsReset(s.dev.d.nvs, mid, nvs, m);
    ResetTouches(s.dev.d.nvs, nvs);
    OtherFollows(k, s, nvs);
    BootLeft(trail, nvs);
  }

  lemma MarkIsReset(nvs: Blobs, m: ConfigStore.Mem, mid: Blobs)
    requires mid == nvs || mid == nvs[ResetMark := ConfigStore.MARKER]
    ensures ConfigRuns.Cut(ConfigRuns.Sys(nvs, m), ConfigRuns.Reset, mid)
  {
  }

  lemma BootLeft(trail: seq<Onboarding.App>, nvs: Blobs)
    requires |trail| > 0 && ConfigStore.ResetCut(trail[|trail| - 1].nvs, nvs)
    ensures Onboarding.LeftBy(trail, nvs)
  {
    hide ConfigStore.ResetCut, ConfigRuns.SameConfig;
    var s, sample := trail[|trail| - 1], Network.Sample(0, false, 0);
    assert Onboarding.Started(s, ConfigRuns.Reset, sample) &&
           ConfigRuns.Cut(ConfigRuns.Sys(s.nvs, s.mem), ConfigRuns.Reset, nvs);
    assert Onboarding.Leaves(s, nvs);
  }
}
