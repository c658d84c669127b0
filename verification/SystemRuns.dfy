/** The firmware from the factory on: both tasks, every fault, and resets wherever power is cut. */
module SystemRuns {
  import opened Bytes
  import opened Manifest
  import opened Hardware
  import opened OtaSpec
  import opened OtaRuns
  import opened Protocol
  import ProtocolSafety
  import OtaSafety

  /** A step of either task, or one during which the power is cut at a durable state, and a new boot. */
  datatype Happening =
    | Acts(step: Protocol.Step)
    | Resets(step: Protocol.Step, left: Durable, now: u32, arm: ArmEnv)

  /** The durable states a step passes through. */
  ghost predicate OnTheWay(k: Kit, s: State, step: Protocol.Step, d: Durable)
    requires Sound(s) && Protocol.Enabled(k, s, step)
  {
    d == s.dev.d ||
    exists cuts: seq<Durable> :: Performs(k, s.dev, Ops(k, s, step), cuts, Protocol.Next(k, s, step).dev) && d in cuts
  }

  ghost predicate Happens(k: Kit, s: State, happening: Happening, t: State) {
    Sound(s) && Protocol.Enabled(k, s, happening.step) &&
    match happening
    case Acts(step) => t == Protocol.Next(k, s, step)
    case Resets(step, left, now, arm) =>
      OnTheWay(k, s, step, left) && ProtocolSafety.Booted(k, t, left, now, arm)
  }

  /** The states of the whole system, from the first power-on of a factory board. */
  ghost predicate SystemRun(k: Kit, states: seq<State>, happenings: seq<Happening>) {
    && |states| == |happenings| + 1
    && (exists d: Durable, now: u32, arm: ArmEnv :: Factory(k, d) && ProtocolSafety.Booted(k, states[0], d, now, arm))
    && forall i | 0 <= i < |happenings| :: Happens(k, states[i], happenings[i], states[i + 1])
  }

  // ---- Projection onto runs of the device -----------------------------------------------------------------

  lemma RunExtends(k: Kit, s: Device, step: OtaRuns.Step)
    requires Reachable(k, s) && Proper(s) && StepEnabled(k, s, step)
    ensures Reachable(k, OtaRuns.Next(k, s, step))
  {
    hide OtaRuns.Next, StepEnabled, Proper, Factory, PowerOn;
    var states: seq<Device>, steps: seq<OtaRuns.Step> :| OtaRuns.Run(k, states, steps) && states[|states| - 1] == s;
    var next := OtaRuns.Next(k, s, step);
    var more, done := states + [next], steps + [step];
    forall i | 0 <= i < |done|
      ensures Proper(more[i]) && StepEnabled(k, more[i], done[i]) && more[i + 1] == OtaRuns.Next(k, more[i], done[i])
    {
      if i < |steps| { assert more[i] == states[i] && more[i + 1] == states[i + 1] && done[i] == steps[i]; }
    }
    assert more[0] == states[0];
    assert OtaRuns.Run(k, more, done);
  }

  /** A reset between operations. */
  lemma ResetReaches(k: Kit, s: Device, now: u32, arm: ArmEnv)
    requires Reachable(k, s) && Proper(s)
    ensures Reachable(k, PowerOn(s.d, now, arm))
  {
    hide Reachable, Proper, PowerOn;
    RunExtends(k, s, PowerCut(DoTick(0), 0, now, arm));
  }

  lemma CutReaches(k: Kit, s: Device, op: Op, d: Durable, now: u32, arm: ArmEnv)
    requires Reachable(k, s) && Proper(s) && OtaRuns.Enabled(k, s, op) && d in Exec(k, s, op).1
    ensures Reachable(k, PowerOn(d, now, arm))
  {
    hide Reachable, Proper, OtaRuns.Enabled, Exec, PowerOn;
    var cuts := Exec(k, s, op).1;
    var at :| 0 <= at < |cuts| && cuts[at] == d;
    RunExtends(k, s, PowerCut(op, at, now, arm));
  }

  /** Operations lead from a reachable device to reachable ones, and so does a reset at any durable state on the way. */
  lemma {:induction false} PerformsReaches(k: Kit, s: Device, ops: seq<Op>, cuts: seq<Durable>, t: Device)
    requires Reachable(k, s) && Performs(k, s, ops, cuts, t)
    ensures Reachable(k, t)
    ensures forall d: Durable, now: u32, arm: ArmEnv | d in cuts :: Reachable(k, PowerOn(d, now, arm))
    decreases |ops|
  {
    hide Reachable, Proper, OtaRuns.Enabled, Exec, PowerOn;
    if |ops| > 0 {
      var (next, first) := Exec(k, s, ops[0]);
      RunExtends(k, s, Do(ops[0]));
      PerformsReaches(k, next, ops[1..], cuts[|first|..], t);
      forall d: Durable, now: u32, arm: ArmEnv | d in cuts ensures Reachable(k, PowerOn(d, now, arm)) {
        assert cuts == first + cuts[|first|..];
        if d in first { CutReaches(k, s, ops[0], d, now, arm); }
      }
    }
  }

  /** What holds of a device that some run reaches, and of the durable state it stands on. */
  lemma ReachableIsSafe(k: Kit, s: Device)
    requires Reachable(k, s)
    ensures OtaRuns.Inv(k, s)
  {
    hide OtaRuns.Inv, OtaRuns.Next, Factory, PowerOn, StepEnabled, Proper;
    var states: seq<Device>, steps: seq<OtaRuns.Step> :| OtaRuns.Run(k, states, steps) && states[|states| - 1] == s;
    OtaSafety.RunKeeps(k, states, steps, |states| - 1);
  }

  lemma FactoryReaches(k: Kit, d: Durable, now: u32, arm: ArmEnv)
    requires Factory(k, d)
    ensures Reachable(k, PowerOn(d, now, arm))
  {
    hide Factory, PowerOn;
    var s := PowerOn(d, now, arm);
    assert OtaRuns.Run(k, [s], []);
    assert [s][|[s]| - 1] == s;
  }

  // ---- Every run --------------------------------------------------------------------------------------------

  lemma HappeningKeeps(k: Kit, s: State, happening: Happening, t: State)
    requires ProtocolSafety.Inv(k, s) && Reachable(k, s.dev) && Happens(k, s, happening, t)
    ensures ProtocolSafety.Inv(k, t) && Reachable(k, t.dev)
  {
    hide ProtocolSafety.Inv, Reachable, Performs, Sound, Protocol.Enabled, Protocol.Next, Ops, DurableInv, PowerOn;
    var step := happening.step;
    var cuts := ProtocolSafety.StepPerforms(k, s, step);
    PerformsReaches(k, s.dev, Ops(k, s, step), cuts, Protocol.Next(k, s, step).dev);
    match happening
    case Acts(_) => ProtocolSafety.NextKeeps(k, s, step);
    case Resets(_, left, now, arm) =>
      LeftIsSafe(k, s, step, left, now, arm);
      ProtocolSafety.BootKeeps(k, t, left, now, arm);
  }

  /** A durable state on the way is safe, and booting it is reachable. */
  lemma LeftIsSafe(k: Kit, s: State, step: Protocol.Step, left: Durable, now: u32, arm: ArmEnv)
    requires ProtocolSafety.Inv(k, s) && Reachable(k, s.dev) && Sound(s) && Protocol.Enabled(k, s, step)
    requires OnTheWay(k, s, step, left)
    ensures Reachable(k, PowerOn(left, now, arm)) && DurableInv(k, left)
  {
    hide ProtocolSafety.Inv, Reachable, Performs, Protocol.Enabled, Protocol.Next, Ops, PowerOn, DurableInv, ValidToken;
    var next := Protocol.Next(k, s, step).dev;
    if left == s.dev.d {
      ResetReaches(k, s.dev, now, arm);
      StandsSafely(k, s.dev);
    } else {
      var cuts: seq<Durable> :| Performs(k, s.dev, Ops(k, s, step), cuts, next) && left in cuts;
      PerformsReaches(k, s.dev, Ops(k, s, step), cuts, next);
      PerformsSafely(k, s.dev, Ops(k, s, step), cuts, next);
    }
  }

  lemma StandsSafely(k: Kit, s: Device)
    requires Reachable(k, s)
    ensures DurableInv(k, s.d)
  {
    hide Reachable, DurableInv, UpdaterInv, BootInv, RuntimeInv;
    ReachableIsSafe(k, s);
  }

  lemma ExecCutIsSafe(k: Kit, s: Device, op: Op, d: Durable)
    requires OtaRuns.Inv(k, s) && Proper(s) && OtaRuns.Enabled(k, s, op) && d in Exec(k, s, op).1
    ensures DurableInv(k, d)
  {
    hide OtaRuns.Inv, Exec, OtaRuns.Enabled, DurableInv;
    OtaSafety.ExecKeeps(k, s, op);
    assert OtaSafety.GoodCut(k, s, d);
  }

  lemma {:induction false} PerformsSafely(k: Kit, s: Device, ops: seq<Op>, cuts: seq<Durable>, t: Device)
    requires Reachable(k, s) && Performs(k, s, ops, cuts, t)
    ensures forall d | d in cuts :: DurableInv(k, d)
    decreases |ops|
  {
    hide Reachable, Proper, OtaRuns.Enabled, Exec, DurableInv, OtaRuns.Inv;
    if |ops| > 0 {
      var (next, first) := Exec(k, s, ops[0]);
      ReachableIsSafe(k, s);
      RunExtends(k, s, Do(ops[0]));
      PerformsSafely(k, next, ops[1..], cuts[|first|..], t);
      forall d | d in cuts ensures DurableInv(k, d) {
        assert cuts == first + cuts[|first|..];
        if d in first { ExecCutIsSafe(k, s, ops[0], d); }
      }
    }
  }

  lemma {:induction false} SystemKeeps(k: Kit, states: seq<State>, happenings: seq<Happening>, i: nat)
    requires SystemRun(k, states, happenings) && i < |states|
    ensures ProtocolSafety.Inv(k, states[i]) && Reachable(k, states[i].dev)
  {
    hide ProtocolSafety.Inv, Reachable, Happens, DurableInv, Factory, PowerOn;
    if i == 0 {
      var d: Durable, now: u32, arm: ArmEnv :| Factory(k, d) && ProtocolSafety.Booted(k, states[0], d, now, arm);
      OtaSafety.FactoryIsSafe(k, d);
      ProtocolSafety.BootKeeps(k, states[0], d, now, arm);
      FactoryReaches(k, d, now, arm);
    } else {
      SystemKeeps(k, states, happenings, i - 1);
      HappeningKeeps(k, states[i - 1], happenings[i - 1], states[i]);
    }
  }

  /** The whole system's guarantee: in every run of both tasks from the factory on, through any resets, the device is
      one that a run of update operations reaches; and every durable state a step passes through boots a good image,
      keeps the attempt fence and self-confirms no legacy push. */
  lemma SystemIsSafe(k: Kit, states: seq<State>, happenings: seq<Happening>, i: nat, step: Protocol.Step, d: Durable)
    requires SystemRun(k, states, happenings) && i < |states|
    requires Sound(states[i]) && Protocol.Enabled(k, states[i], step) && OnTheWay(k, states[i], step, d)
    ensures Reachable(k, states[i].dev)
    ensures BootSafe(k, d) && Fence(d.history) && ContextFirst(d.history) && AttemptsRise(d.history) &&
            NoSelfConfirm(d.history)
  {
    hide ProtocolSafety.Inv, Reachable, SystemRun, Sound, Protocol.Enabled, OnTheWay, BootSafe, ContextTracked,
        SelectionKept, Fence,
         ContextFirst, AttemptsRise, NoSelfConfirm;
    SystemKeeps(k, states, happenings, i);
    LeftIsSafe(k, states[i], step, d, 0, ArmEnv(true, true));
  }
}
