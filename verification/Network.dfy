/** The connection state machine of core.cpp: timers, retry delays and the decision to promote. */
module Network {
  import opened Bytes
  import opened Clock
  import ConfigStore

  const TRIAL_MS: u32 := 60000
  const STABLE_MS: u32 := 5000
  const REBOOT_MS: u32 := 1000

  datatype Mode = Stopped | Provisioning | Trial | Station | Rebooting | Fault
  datatype Action = NoAction | StartAp | Connect | Promote | DiscardTrial | Reboot

  datatype Net = Net(mode: Mode, since: u32, attempt: u32, stable: u32, retry: u32, connected: bool)

  const STOPPED := Net(Stopped, 0, 0, 0, 5000, false)

  function Begin(n: Net, config: ConfigStore.State, now: u32): (Net, Action) {
    var timed := n.(since := now, attempt := now, connected := false, retry := 5000);
    match config
    case Corrupt => (timed.(mode := Fault), NoAction)
    case Empty => (timed.(mode := Provisioning), StartAp)
    case Trial => (timed.(mode := Trial), Connect)
    case Active => (timed.(mode := Station), Connect)
  }

  function NextRetry(retry: u32, jitter: u32): (r: u32)
    requires retry <= 60000
  {
    var base := if retry >= 30000 then 60000 else retry * 2;
    var jittered := base + jitter % 1001;
    if jittered > 60000 then 60000 else jittered
  }

  function Tick(n: Net, now: u32, up: bool, jitter: u32): (Net, Action)
    requires n.retry <= 60000
  {
    if n.mode == Rebooting && Elapsed(now, n.since, REBOOT_MS) then (n, Reboot)
    else if n.mode != Trial && n.mode != Station then (n, NoAction)
    else
      var risen := if up && !n.connected then n.(stable := now) else n;
      var fallen := if !up && n.connected then risen.(attempt := now, retry := 5000) else risen;
      var seen := fallen.(connected := up);
      if n.mode == Trial && up && Elapsed(now, seen.stable, STABLE_MS) then (seen, Promote)
      else if n.mode == Trial && Elapsed(now, seen.since, TRIAL_MS) then (seen, DiscardTrial)
      else if !up && Elapsed(now, seen.attempt, seen.retry) then
        (seen.(attempt := now, retry := NextRetry(seen.retry, jitter)), Connect)
      else (seen, NoAction)
  }

  class NetworkState {
    var mode: Mode
    var since: u32
    var attempt: u32
    var stable: u32
    var retryMs: u32
    var connected: bool

    function Value(): Net
      reads this
    {
      Net(mode, since, attempt, stable, retryMs, connected)
    }

    constructor ()
      ensures Value() == STOPPED
    {
      mode, since, attempt, stable, retryMs, connected := Stopped, 0, 0, 0, 5000, false;
    }

    method BeginWith(config: ConfigStore.State, now: u32) returns (action: Action)
      modifies this
      ensures (Value(), action) == Begin(old(Value()), config, now)
    {
      since, attempt := now, now;
      connected := false;
      retryMs := 5000;
      if config == ConfigStore.Corrupt { mode := Fault; return NoAction; }
      if config == ConfigStore.Empty { mode := Provisioning; return StartAp; }
      mode := if config == ConfigStore.Trial then Trial else Station;
      return Connect;
    }

    method TickAt(now: u32, up: bool, jitter: u32) returns (action: Action)
      requires retryMs <= 60000
      modifies this
      ensures (Value(), action) == Tick(old(Value()), now, up, jitter)
    {
      if mode == Rebooting && Elapsed(now, since, REBOOT_MS) { return Reboot; }
      if mode != Trial && mode != Station { return NoAction; }
      if up && !connected { stable := now; }
      if !up && connected { attempt := now; retryMs := 5000; }
      connected := up;
      if mode == Trial {
        if up && Elapsed(now, stable, STABLE_MS) { return Promote; }
        if Elapsed(now, since, TRIAL_MS) { return DiscardTrial; }
      }
      if !up && Elapsed(now, attempt, retryMs) {
        attempt := now;
        retryMs := if retryMs >= 30000 then 60000 else retryMs * 2;
        retryMs := retryMs + jitter % 1001;
        if retryMs > 60000 { retryMs := 60000; }
        return Connect;
      }
      return NoAction;
    }
  }

  // ---- Traces ---------------------------------------------------------------------------------

  /** One call of tick, with the true time behind millis(). */
  datatype Sample = Sample(t: nat, up: bool, jitter: u32)

  predicate InOrder(samples: seq<Sample>) {
    forall i, j | 0 <= i < j < |samples| :: samples[i].t <= samples[j].t
  }

  predicate RetryInRange(n: Net) {
    5000 <= n.retry <= 60000
  }

  function After(n: Net, samples: seq<Sample>): (r: Net)
    requires RetryInRange(n)
    ensures RetryInRange(r) && r.mode == n.mode && r.since == n.since
    decreases |samples|
  {
    if |samples| == 0 then n
    else
      var last := samples[|samples| - 1];
      Tick(After(n, samples[..|samples| - 1]), Millis(last.t), last.up, last.jitter).0
  }

  /** The last k samples all report the link up and span at least STABLE_MS of true time. */
  predicate StableRun(samples: seq<Sample>, j: nat) {
    && j < |samples|
    && (forall i | j <= i < |samples| :: samples[i].up)
    && samples[|samples| - 1].t - samples[j].t >= 5000
  }

  /** A machine that counts itself connected has seen nothing else since the sample its timer names. */
  lemma {:induction false} ConnectedSince(n: Net, samples: seq<Sample>) returns (j: nat)
    requires RetryInRange(n) && !n.connected && (n.mode == Trial || n.mode == Station)
    requires After(n, samples).connected
    ensures j < |samples| && (forall i | j <= i < |samples| :: samples[i].up)
    ensures After(n, samples).stable == Millis(samples[j].t)
    decreases |samples|
  {
    var k := |samples| - 1;
    var before := After(n, samples[..k]);
    if before.connected {
      j := ConnectedSince(n, samples[..k]);
    } else {
      j := k;
    }
  }

  /** Promotion is decided only after an unbroken run of ticks with the link up that really lasted 5 s,
      also across wraps of the millisecond counter. */
  lemma PromotionNeedsStableLink(n: Net, samples: seq<Sample>) returns (j: nat)
    requires RetryInRange(n) && !n.connected && n.mode == Trial
    requires |samples| > 0 && InOrder(samples)
    requires var last := samples[|samples| - 1];
             Tick(After(n, samples[..|samples| - 1]), Millis(last.t), last.up, last.jitter).1 == Promote
    ensures StableRun(samples, j)
  {
    assert After(n, samples).connected;
    j := ConnectedSince(n, samples);
    ElapsedIsSound(samples[|samples| - 1].t, samples[j].t, STABLE_MS);
  }

  // ---- The end of a trial ----------------------------------------------------------------------

  /** The samples of a trial that began at true time begun, in order and less than 2^32 ms long. */
  predicate TrialSamples(begun: nat, samples: seq<Sample>) {
    && |samples| > 0 && InOrder(samples)
    && begun <= samples[0].t && samples[|samples| - 1].t - begun < 0x1_0000_0000
  }

  /** What the machine asks for on the last of these samples, having begun with a trial. */
  function Decision(n: Net, begun: nat, samples: seq<Sample>): Action
    requires |samples| > 0
  {
    var start := Begin(n, ConfigStore.Trial, Millis(begun)).0;
    var last := samples[|samples| - 1];
    Tick(After(start, samples[..|samples| - 1]), Millis(last.t), last.up, last.jitter).1
  }

  /** Link up in every sample from j on. */
  predicate UpSince(samples: seq<Sample>, j: nat) {
    j < |samples| && forall i | j <= i < |samples| :: samples[i].up
  }

  /** A machine whose last samples saw the link up names the first of them, and one whose last did not is
      unconnected. */
  lemma {:induction false} StableSince(n: Net, samples: seq<Sample>) returns (j: nat)
    requires RetryInRange(n) && !n.connected && n.mode == Trial
    ensures After(n, samples).connected <==> |samples| > 0 && samples[|samples| - 1].up
    ensures After(n, samples).connected ==> UpSince(samples, j) && After(n, samples).stable == Millis(samples[j].t)
    ensures After(n, samples).connected ==> forall i: nat | UpSince(samples, i) :: j <= i
    decreases |samples|
  {
    j := 0;
    if |samples| > 0 {
      var k := |samples| - 1;
      var before := samples[..k];
      j := StableSince(n, before);
      if samples[k].up {
        if !After(n, before).connected { j := k; }
        forall i: nat | UpSince(samples, i) ensures j <= i {
          if i < k { assert UpSince(before, i) by { assert forall m | i <= m < k :: before[m] == samples[m]; } }
        }
      }
    }
  }

  /** A trial ends as it should: below the wrap, promotion is asked for exactly when the link has been up in every
      tick for at least 5 s, and otherwise withdrawal exactly from 60 s after the trial began. */
  lemma TrialEndsExactly(n: Net, begun: nat, samples: seq<Sample>)
    requires TrialSamples(begun, samples)
    ensures var t := samples[|samples| - 1].t;
            var stable := exists j: nat :: UpSince(samples, j) && t - samples[j].t >= 5000;
            && (Decision(n, begun, samples) == Promote <==> stable)
            && (Decision(n, begun, samples) == DiscardTrial <==> !stable && t - begun >= 60000)
  {
    hide Millis, Elapsed;
    var start := Begin(n, ConfigStore.Trial, Millis(begun)).0;
    var k := |samples| - 1;
    var t := samples[k].t;
    var j := StableSince(start, samples);
    assert samples[..|samples|] == samples;
    ElapsedIsSound(t, begun, TRIAL_MS);
    if samples[k].up {
      assert begun <= samples[j].t <= t;
      ElapsedIsSound(t, samples[j].t, STABLE_MS);
      forall i: nat | UpSince(samples, i) && t - samples[i].t >= 5000 ensures t - samples[j].t >= 5000 {
        assert samples[j].t <= samples[i].t;
      }
    }
  }

  /** Also beyond the wrap a trial is never withdrawn before 60 s have passed. */
  lemma NoEarlyWithdrawal(n: Net, begun: nat, samples: seq<Sample>)
    requires |samples| > 0 && begun <= samples[|samples| - 1].t && Decision(n, begun, samples) == DiscardTrial
    ensures samples[|samples| - 1].t - begun >= 60000
  {
    hide Millis, Elapsed;
    ElapsedIsSound(samples[|samples| - 1].t, begun, TRIAL_MS);
  }

  // ---- The other modes ----------------------------------------------------------------------------

  /** A reboot comes exactly from one second after it was entered, and nothing else does. */
  lemma RebootsExactly(n: Net, entered: nat, t: nat, up: bool, jitter: u32)
    requires n.retry <= 60000 && n.mode == Rebooting && n.since == Millis(entered)
    requires entered <= t < entered + 0x1_0000_0000
    ensures Tick(n, Millis(t), up, jitter) == (n, if t - entered >= 1000 then Reboot else NoAction)
  {
    hide Millis, Elapsed;
    ElapsedIsSound(t, entered, REBOOT_MS);
  }

  /** A station's ticks ask only for connections, and a link that is lost is left alone for 5 s first. */
  lemma StationReconnects(n: Net, t: nat, up: bool, jitter: u32)
    requires RetryInRange(n) && n.mode == Station
    ensures var (next, action) := Tick(n, Millis(t), up, jitter);
            && (action == NoAction || action == Connect) && next.mode == Station && next.connected == up
            && (up ==> action == NoAction)
            && (n.connected && !up ==> action == NoAction && next.attempt == Millis(t) && next.retry == 5000)
  {
    hide Millis;
  }

  // ---- Retries -----------------------------------------------------------------------------------

  function Power2(k: nat): nat {
    if k == 0 then 1 else 2 * Power2(k - 1)
  }

  function Least(a: int, b: int): int {
    if a < b then a else b
  }

  /** The delay after as many attempts that failed, from the first one's 5 s on. */
  function RetryAfter(jitters: seq<u32>): (r: u32)
    ensures 5000 <= r <= 60000
    decreases |jitters|
  {
    if |jitters| == 0 then 5000 else NextRetry(RetryAfter(jitters[..|jitters| - 1]), jitters[|jitters| - 1])
  }

  /** Delays double from 5 s up to 60 s; a second of jitter comes on top each time and is doubled with the rest. */
  lemma {:induction false} RetriesDouble(jitters: seq<u32>)
    ensures var k := Power2(|jitters|);
            Least(60000, 5000 * k) <= RetryAfter(jitters) <= Least(60000, 6000 * k - 1000)
    decreases |jitters|
  {
    if |jitters| > 0 { RetriesDouble(jitters[..|jitters| - 1]); }
  }

  /** With the link down all the time a trial or a station attempts again exactly when its delay has passed, and then
      waits for the next one. */
  lemma RetriesWhenDue(n: Net, t: nat, attempted: nat, jitter: u32)
    requires RetryInRange(n) && (n.mode == Station || n.mode == Trial) && !n.connected && n.attempt == Millis(attempted)
    requires attempted <= t < attempted + 0x1_0000_0000
    requires n.mode == Trial ==> !Elapsed(Millis(t), n.since, TRIAL_MS)
    ensures var (next, action) := Tick(n, Millis(t), false, jitter);
            if t - attempted >= n.retry
            then action == Connect && next.attempt == Millis(t) && next.retry == NextRetry(n.retry, jitter)
            else action == NoAction && next.attempt == n.attempt && next.retry == n.retry
  {
    hide Millis, Elapsed;
    ElapsedIsSound(t, attempted, n.retry);
  }
}

/** Store and network together, as main.cpp drives them. */
module Onboarding {
  import opened Bytes
  import opened Clock
  import opened Wifi
  import opened Hardware
  import opened ConfigStore
  import ConfigRuns
  import N = Network

  /** loaded: the store was loaded as a trial in this boot and not staged since.
      start and samples describe the network machine since it last began. */
  datatype App = App(nvs: Blobs, mem: Mem, net: N.Net, pendingReboot: bool, loaded: bool,
                     start: N.Net, samples: seq<N.Sample>)

  datatype Step =
    /** A power cut or restart, then a boot. If the durable state differs from the last one, the cut came during
        op, which the loop pass with this sample had started. fault: initialisation failed after loading. */
    | Boot(op: ConfigRuns.Op, sample: N.Sample, cut: Blobs, fault: bool, now: u32)
    | LoopTick(sample: N.Sample)
    | Save(candidate: WifiConfig, ok: bool)
    | EnterReboot(now: u32)
    | OtaReboot
    | AnyFault
    /** Records the store does not read: update journal and context, automatic policy. */
    | OtherRecords(nvs: Blobs)

  predicate Booted(s: App, step: Step, s': App)
    requires step.Boot?
  {
    && (step.cut == s.nvs || (Started(s, step.op, step.sample) &&
        ConfigRuns.Cut(ConfigRuns.Sys(s.nvs, s.mem), step.op, step.cut)))
    && ConfigStore.Booted(step.cut, s'.nvs, s'.mem)
    && !s'.pendingReboot && s'.loaded == (s'.mem.state == Trial) && s'.samples == []
    && s'.net == (if step.fault || s'.mem.state == Corrupt then N.STOPPED.(mode := N.Fault)
                  else N.Begin(N.STOPPED, s'.mem.state, step.now).0)
    && s'.start == s'.net
  }

  /** When main.cpp calls an operation: promote and discardTrial on the tick's action, stage while provisioning. */
  predicate Started(s: App, op: ConfigRuns.Op, sample: N.Sample) {
    match op
    case Stage(_) => s.net.mode == N.Provisioning
    case Promote => TickDecides(s, sample, N.Promote)
    case Discard => TickDecides(s, sample, N.DiscardTrial)
    case Reset => true
  }

  predicate TickDecides(s: App, sample: N.Sample, action: N.Action) {
    && !s.pendingReboot && s.net.retry <= 60000
    && (forall i | 0 <= i < |s.samples| :: s.samples[i].t <= sample.t)
    && N.Tick(s.net, Millis(sample.t), sample.up, sample.jitter).1 == action
  }

  /** tick and then applyAction, both inside one loop pass. */
  predicate Ticked(s: App, sample: N.Sample, s': App) {
    && !s.pendingReboot && s.net.retry <= 60000
    && (forall i | 0 <= i < |s.samples| :: s.samples[i].t <= sample.t)
    && var (net, action) := N.Tick(s.net, Millis(sample.t), sample.up, sample.jitter);
       var seen := s.(net := net, samples := s.samples + [sample]);
       match action
       case Promote =>
         exists ok ::
           Promoted(s.nvs, s.mem, ok, s'.nvs, s'.mem) &&
           s' == seen.(nvs := s'.nvs, mem := s'.mem, net := net.(mode := if ok then N.Station else N.Fault))
       case DiscardTrial =>
         exists ok ::
           Discarded(s.nvs, s.mem, ok, s'.nvs, s'.mem) &&
           (if ok then
              var begun := N.Begin(net, Empty, Millis(sample.t)).0;
              s' == App(s'.nvs, s'.mem, begun, s.pendingReboot, false, begun, [])
            else s' == seen.(nvs := s'.nvs, mem := s'.mem, net := net.(mode := N.Fault)))
       case _ => s' == seen
  }

  predicate Saved(s: App, candidate: WifiConfig, ok: bool, s': App) {
    && s.net.mode == N.Provisioning
    && candidate.revision == s.mem.revision && s.mem.revision != U32_MAX
    && Staged(s.nvs, s.mem, candidate, ok, s'.nvs, s'.mem)
    && s' == s.(nvs := s'.nvs, mem := s'.mem, loaded := false, pendingReboot := s.pendingReboot || ok,
                net := if ok then s.net else s.net.(mode := N.Fault))
  }

  predicate Follows(s: App, step: Step, s': App) {
    match step
    case Boot(_, _, _, _, _) => Booted(s, step, s')
    case LoopTick(sample) => Ticked(s, sample, s')
    case Save(candidate, ok) => Saved(s, candidate, ok, s')
    case EnterReboot(now) => s.pendingReboot &&
        s' == s.(pendingReboot := false, net := s.net.(mode := N.Rebooting, since := now))
    case OtaReboot => s' == s.(pendingReboot := true)
    case AnyFault => s' == s.(net := s.net.(mode := N.Fault))
    case OtherRecords(nvs) => ConfigRuns.SameConfig(s.nvs, nvs) && s' == s.(nvs := nvs)
  }

  /** A boot that is not stopped by a fault goes by what the store loaded: a trial is tried, an active configuration
      used, an empty store provisioned. */
  lemma BootFollowsStore(s: App, step: Step, s': App)
    requires step.Boot? && Booted(s, step, s')
    ensures s'.net.mode == (if step.fault || s'.mem.state == Corrupt then N.Fault
                            else if s'.mem.state == Trial then N.Trial
                            else if s'.mem.state == Active then N.Station else N.Provisioning)
    ensures !s'.net.connected && s'.net.retry == 5000
  {
    hide ConfigStore.Booted, ConfigRuns.Cut;
  }

  /** Mode and store state belong together, and the network machine is what its samples made it. */
  predicate Inv(s: App) {
    && ConfigRuns.Inv(ConfigRuns.Sys(s.nvs, s.mem))
    && (s.net.mode == N.Trial ==> s.mem.state == Trial && s.loaded)
    && (s.net.mode == N.Station ==> s.mem.state == Active)
    && (s.net.mode == N.Provisioning ==> s.mem.state == Empty || s.pendingReboot)
    && N.RetryInRange(s.start) && N.RetryInRange(s.net) && N.InOrder(s.samples)
    && (s.net.mode == N.Trial ==>
          s.start.mode == N.Trial && !s.start.connected && s.net == N.After(s.start, s.samples))
  }

  lemma StepKeepsInv(s: App, step: Step, s': App)
    requires Inv(s) && Follows(s, step, s')
    ensures Inv(s')
  {
    hide Staged, Discarded, Promoted, ConfigRuns.Cut, ConfigStore.Booted, ConfigRuns.Agrees, ConfigRuns.Clean;
    var c, c' := ConfigRuns.Sys(s.nvs, s.mem), ConfigRuns.Sys(s'.nvs, s'.mem);
    match step
    case Boot(op, sample, cut, fault, now) =>
      if cut != s.nvs { ConfigRuns.CutsStayRecoverable(c, op, cut); }
      StoreInv(s);
      ConfigRuns.BootKeepsInv(cut, s'.nvs, s'.mem);
    case LoopTick(sample) => TickKeepsInv(s, sample, s');
    case Save(candidate, ok) =>
      ConfigRuns.ReturnKeepsInv(c, ConfigRuns.Stage(candidate), ok, c') by { SaveReturns(s, candidate, ok, s'); }
    case EnterReboot(_) =>
    case OtaReboot =>
    case AnyFault =>
    case OtherRecords(nvs) => ConfigRuns.ConfigDecides(s.nvs, nvs, s.mem);
  }

  lemma StoreInv(s: App)
    requires ConfigRuns.Inv(ConfigRuns.Sys(s.nvs, s.mem))
    ensures ConfigRuns.Clean(s.nvs) || ConfigStore.ResetPending(s.nvs)
  {
  }

  lemma SaveReturns(s: App, candidate: WifiConfig, ok: bool, s': App)
    requires Saved(s, candidate, ok, s')
    ensures ConfigRuns.Returned(ConfigRuns.Sys(s.nvs, s.mem), ConfigRuns.Stage(candidate), ok, ConfigRuns.Sys(s'.nvs,
        s'.mem))
  {
  }

  lemma TickKeepsInv(s: App, sample: N.Sample, s': App)
    requires Inv(s) && Ticked(s, sample, s')
    ensures Inv(s')
  {
    hide ConfigRuns.Inv, N.Tick, N.After;
    var c, c' := ConfigRuns.Sys(s.nvs, s.mem), ConfigRuns.Sys(s'.nvs, s'.mem);
    var (net, action) := N.Tick(s.net, Millis(sample.t), sample.up, sample.jitter);
    var samples := s.samples + [sample];
    TickShape(s.net, sample);
    if s.net.mode == N.Trial { AfterOneMore(s.start, s.samples, sample); }
    match action
    case Promote =>
      var ok :| Promoted(s.nvs, s.mem, ok, s'.nvs, s'.mem) &&
        s' == s.(net := net, samples := samples).(nvs := s'.nvs, mem := s'.mem,
            net := net.(mode := if ok then N.Station else N.Fault));
      assert ConfigRuns.Returned(c, ConfigRuns.Promote, ok, c');
      ConfigRuns.ReturnKeepsInv(c, ConfigRuns.Promote, ok, c');
    case DiscardTrial =>
      var ok :| Discarded(s.nvs, s.mem, ok, s'.nvs, s'.mem) &&
        (if ok then
           var begun := N.Begin(net, Empty, Millis(sample.t)).0;
           s' == App(s'.nvs, s'.mem, begun, s.pendingReboot, false, begun, [])
         else s' == s.(net := net, samples := samples).(nvs := s'.nvs, mem := s'.mem, net := net.(mode := N.Fault)));
      assert ConfigRuns.Returned(c, ConfigRuns.Discard, ok, c');
      ConfigRuns.ReturnKeepsInv(c, ConfigRuns.Discard, ok, c');
    case _ =>
  }

  lemma TickShape(n: N.Net, sample: N.Sample)
    requires N.RetryInRange(n)
    ensures var (net, action) := N.Tick(n, Millis(sample.t), sample.up, sample.jitter);
            net.mode == n.mode && N.RetryInRange(net) && (action == N.Promote || action == N.DiscardTrial ==>
                n.mode == N.Trial)
  {
  }

  lemma AfterOneMore(n: N.Net, samples: seq<N.Sample>, sample: N.Sample)
    requires N.RetryInRange(n)
    ensures N.After(n, samples + [sample]) == N.Tick(N.After(n, samples), Millis(sample.t), sample.up, sample.jitter).0
  {
    assert (samples + [sample])[..|samples|] == samples;
  }

  predicate NewActive(before: Blobs, after: Blobs) {
    ActiveRef in after && (ActiveRef !in before || before[ActiveRef] != after[ActiveRef])
  }

  /** The durable active reference is written only by promotion, only for the configuration loaded as a trial in
      this boot, and only after an unbroken run of ticks with the link up for 5 s. */
  lemma PromotionNeedsProof(s: App, step: Step, s': App) returns (j: nat)
    requires Inv(s) && Follows(s, step, s') && NewActive(s.nvs, s'.nvs)
    ensures step.LoopTick? || (step.Boot? && step.op == ConfigRuns.Promote)
    ensures s.loaded && s.mem.state == Trial && s'.nvs[ActiveRef] == s.mem.selected
    ensures N.StableRun(s.samples + [step.sample], j)
  {
    hide ConfigRuns.Inv, Reference, EncodeConfig, DecodeConfig, N.Tick, N.After;
    if step.Boot? {
      BootWritesActiveOnlyByPromote(s, step, s');
    } else if !step.LoopTick? {
      SaveLeavesActive(s, step, s');
      assert false;
    }
    TickShape(s.net, step.sample);
    assert (s.samples + [step.sample])[..|s.samples|] == s.samples;
    j := N.PromotionNeedsStableLink(s.start, s.samples + [step.sample]);
  }

  lemma SaveLeavesActive(s: App, step: Step, s': App)
    requires Follows(s, step, s') && !step.Boot? && !step.LoopTick?
    ensures !NewActive(s.nvs, s'.nvs)
  {
    hide EncodeConfig, Reference;
  }

  lemma BootWritesActiveOnlyByPromote(s: App, step: Step, s': App)
    requires step.Boot? && Booted(s, step, s') && NewActive(s.nvs, s'.nvs)
    ensures step.op == ConfigRuns.Promote && s.mem.state == Trial && s'.nvs[ActiveRef] == s.mem.selected
    ensures TickDecides(s, step.sample, N.Promote)
  {
    hide EncodeConfig, Reference, ConfigStore.Load;
    BootOnlyErases(step.cut, s'.nvs, s'.mem);
    if step.op == ConfigRuns.Reset && step.cut != s.nvs {
      var marked := s.nvs[ResetMark := MARKER];
      if step.cut != marked {
        var k :| 0 <= k <= |WIPED| && step.cut == Wiped(marked, k);
        ConfigRuns.WipedKeys(marked, k);
      }
    }
  }

  lemma BootOnlyErases(nvs: Blobs, nvs': Blobs, m: Mem)
    requires ConfigStore.Booted(nvs, nvs', m)
    ensures forall key | key in nvs' :: key in nvs && nvs'[key] == nvs[key]
  {
    hide ConfigStore.Load;
    if nvs' != nvs {
      if m.state == Corrupt && ResumeCut(nvs, nvs') {
        var k :| 0 <= k <= |WIPED| && nvs' == Wiped(nvs, k);
        ConfigRuns.WipedKeys(nvs, k);
      } else {
        ConfigRuns.WipedKeys(nvs, |WIPED|);
      }
    }
  }

  predicate Run(states: seq<App>, steps: seq<Step>) {
    |states| == |steps| + 1 && forall i | 0 <= i < |steps| :: Follows(states[i], steps[i], states[i + 1])
  }

  /** Mode and store agree in every run. */
  lemma {:induction false} RunsStayConsistent(states: seq<App>, steps: seq<Step>, k: nat)
    requires Run(states, steps) && Inv(states[0]) && k < |states|
    ensures Inv(states[k])
  {
    hide Follows, Inv;
    if k > 0 {
      RunsStayConsistent(states, steps, k - 1);
      StepKeepsInv(states[k - 1], steps[k - 1], states[k]);
    }
  }

  lemma RunExtends(states: seq<App>, steps: seq<Step>, step: Step, next: App)
    requires Run(states, steps) && Follows(states[|states| - 1], step, next)
    ensures Run(states + [next], steps + [step])
  {
    hide Follows;
    var more, done := states + [next], steps + [step];
    forall i | 0 <= i < |done| ensures Follows(more[i], done[i], more[i + 1]) {
      if i < |steps| { assert more[i] == states[i] && more[i + 1] == states[i + 1] && done[i] == steps[i]; }
    }
  }

  /** What a boot can find after s: its own records, whatever the store does not read, or what an operation of the
      store, started in s, passes through. */
  ghost predicate Leaves(s: App, nvs: Blobs) {
    ConfigRuns.SameConfig(s.nvs, nvs) ||
    exists op: ConfigRuns.Op, sample: N.Sample :: Started(s, op, sample) &&
        ConfigRuns.Cut(ConfigRuns.Sys(s.nvs, s.mem), op, nvs)
  }

  ghost predicate LeftBy(states: seq<App>, nvs: Blobs) {
    exists j :: 0 <= j < |states| && Leaves(states[j], nvs)
  }

  /** A boot that stops in the fault mode before it has read anything. */
  function Stuck(nvs: Blobs): App {
    var net := N.STOPPED.(mode := N.Fault);
    App(nvs, FRESH, net, false, false, net, [])
  }

  /** A reset at a durable state some state of the run leaves: the run up to that state goes on from there. */
  lemma ResetContinues(states: seq<App>, steps: seq<Step>, nvs: Blobs) returns (states': seq<App>, steps': seq<Step>)
    requires Run(states, steps) && LeftBy(states, nvs)
    ensures Run(states', steps') && states'[0] == states[0] && states'[|states'| - 1].nvs == nvs
  {
    hide Started, ConfigRuns.Cut, ConfigStore.Booted, ConfigRuns.SameConfig;
    var j :| 0 <= j < |states| && Leaves(states[j], nvs);
    states', steps' := states[..j + 1], steps[..j];
    var s, sample := states[j], N.Sample(0, false, 0);
    var step := OtherRecords(nvs);
    if ConfigRuns.SameConfig(s.nvs, nvs) {
      RunExtends(states', steps', step, s.(nvs := nvs));
      states' := states' + [s.(nvs := nvs)];
    } else {
      var op: ConfigRuns.Op, seen: N.Sample :| Started(s, op, seen) &&
          ConfigRuns.Cut(ConfigRuns.Sys(s.nvs, s.mem), op, nvs);
      step := Boot(op, seen, nvs, true, 0);
      StuckBoot(nvs);
      RunExtends(states', steps', step, Stuck(nvs));
      states' := states' + [Stuck(nvs)];
    }
    steps' := steps' + [step];
  }

  /** A tick that promotes, and one that withdraws the trial, as steps. */
  lemma TickPromotes(s: App, sample: N.Sample, ok: bool, next: App)
    requires TickDecides(s, sample, N.Promote) && Promoted(s.nvs, s.mem, ok, next.nvs, next.mem)
    requires var net := N.Tick(s.net, Millis(sample.t), sample.up, sample.jitter).0;
             next == s.(nvs := next.nvs, mem := next.mem, samples := s.samples + [sample],
                        net := net.(mode := if ok then N.Station else N.Fault))
    ensures Follows(s, LoopTick(sample), next)
  {
    hide N.Tick, Promoted;
  }

  lemma TickWithdraws(s: App, sample: N.Sample, ok: bool, next: App)
    requires TickDecides(s, sample, N.DiscardTrial) && Discarded(s.nvs, s.mem, ok, next.nvs, next.mem)
    requires var net := N.Tick(s.net, Millis(sample.t), sample.up, sample.jitter).0;
             var begun := N.Begin(net, Empty, Millis(sample.t)).0;
             next == if ok then App(next.nvs, next.mem, begun, s.pendingReboot, false, begun, [])
                     else s.(nvs := next.nvs, mem := next.mem, samples := s.samples + [sample],
                         net := net.(mode := N.Fault))
    ensures Follows(s, LoopTick(sample), next)
  {
    hide N.Tick, Discarded, N.Begin;
  }

  lemma StuckBoot(nvs: Blobs)
    ensures ConfigStore.Booted(nvs, nvs, FRESH)
  {
  }
}
