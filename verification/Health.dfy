/** The trial of a new image, call by call: when it may be marked valid, and when it is given up. */
module Health {
  import opened Bytes
  import opened Clock
  import opened Manifest
  import Hardware
  import opened OtaSpec
  import OtaRuns

  /** A call of the runtime after arm, with the true time behind its clock reading. */
  datatype Call =
    | PollCall(t: nat, healthy: bool, marks: bool)
    | ConfirmCall(t: nat, token: seq<byte>, healthy: bool, marks: bool)
    | WatchdogFault(t: nat)

  /** Whether the call marks the image valid. */
  predicate Marks(k: Kit, id: Identity, rt: Runtime, call: Call) {
    match call
    case PollCall(t, healthy, marks) =>
      var (seen, result) := Poll(rt, Millis(t), healthy);
      result == AskConfirm && MayConfirm(seen, k, id, seen.transaction, true, Millis(t)) && marks
    case ConfirmCall(t, token, healthy, marks) => MayConfirm(rt, k, id, token, healthy, Millis(t)) && marks
    case WatchdogFault(_) => false
  }

  function Apply(k: Kit, id: Identity, rt: Runtime, call: Call): Runtime {
    var seen := match call
                case PollCall(t, healthy, _) => Poll(rt, Millis(t), healthy).0
                case ConfirmCall(_, _, _, _) => rt
                case WatchdogFault(_) => rt.(fatal := true, state := WatchdogError);
    if Marks(k, id, rt, call) then MarkedValidState(seen) else seen
  }

  function After(k: Kit, id: Identity, rt: Runtime, calls: seq<Call>): Runtime
    decreases |calls|
  {
    if |calls| == 0 then rt
    else Apply(k, id, After(k, id, rt, calls[..|calls| - 1]), calls[|calls| - 1])
  }

  datatype Sample = Sample(t: nat, healthy: bool)

  /** The polls among the calls. */
  function Polls(calls: seq<Call>): seq<Sample>
    decreases |calls|
  {
    if |calls| == 0 then []
    else
      var before := Polls(calls[..|calls| - 1]);
      var last := calls[|calls| - 1];
      if last.PollCall? then before + [Sample(last.t, last.healthy)] else before
  }

  function LastPoll(armed: nat, polls: seq<Sample>): nat {
    if |polls| == 0 then armed else polls[|polls| - 1].t
  }

  /** True times do not run backwards, and no call comes 2^32 - 30000 ms or later after the last poll. */
  predicate Regular(armed: nat, calls: seq<Call>)
    decreases |calls|
  {
    |calls| == 0 ||
    (var before, last := calls[..|calls| - 1], calls[|calls| - 1];
     && Regular(armed, before)
     && (if |before| == 0 then armed else before[|before| - 1].t) <= last.t
     && last.t - LastPoll(armed, Polls(before)) < 0x1_0000_0000 - HEALTH_MS)
  }

  /** arm left it so, and begin does not touch these fields. */
  predicate TrialFrom(rt: Runtime, armed: nat) {
    && rt.pending && !rt.observing
    && rt.started == Millis(armed) && rt.lastPoll == Millis(armed) && rt.healthyAt == Millis(armed)
  }

  /** A boot of an image on trial starts one, and begin keeps it unless it gives the image up. */
  lemma BootStartsTrial(k: Kit, armed: nat, arm: ArmEnv, nvs: Hardware.Blobs, id: Identity, env: BeginEnv)
    requires arm.stateKnown
    ensures var rt := Arm(Hardware.OnTrial, Millis(armed), arm); var (begun, rollback) := BeginRuntime(rt, nvs, k,
        id, env);
            TrialFrom(rt, armed) && (!rollback ==> TrialFrom(begun, armed))
  {
    hide Millis, ReadContext, ReadJournal, ContextMatches, Matches;
  }

  /** Polls from j on are all healthy and less than 250 ms of true time apart. */
  predicate HealthyRun(polls: seq<Sample>, j: nat) {
    && j < |polls|
    && (forall i | j <= i < |polls| :: polls[i].healthy)
    && forall i | j < i < |polls| :: 0 <= polls[i].t - polls[i - 1].t < HEALTH_POLL_MAX_MS
  }

  /** The observation timer names the start of a healthy run up to the last poll. */
  ghost predicate Observed(polls: seq<Sample>, healthyAt: u32, armed: nat) {
    exists j: nat :: HealthyRun(polls, j) && healthyAt == Millis(polls[j].t) && armed <= polls[j].t
  }

  /** What a trial still going knows after these polls. */
  ghost predicate TrialInv(now: Runtime, armed: nat, polls: seq<Sample>) {
    && now.started == Millis(armed) && armed <= LastPoll(armed, polls)
    && (now.pending && !now.fatal ==>
          && LastPoll(armed, polls) - armed < HEALTH_MS
          && (now.origin != LegacyPush ==>
                now.lastPoll == Millis(LastPoll(armed, polls)) && (now.observing ==>
                    Observed(polls, now.healthyAt, armed))))
  }

  lemma RunExtends(polls: seq<Sample>, healthyAt: u32, armed: nat, t: nat)
    requires Observed(polls, healthyAt, armed) && 0 <= t - LastPoll(armed, polls) < HEALTH_POLL_MAX_MS
    ensures Observed(polls + [Sample(t, true)], healthyAt, armed)
  {
    hide Millis;
    var j: nat :| HealthyRun(polls, j) && healthyAt == Millis(polls[j].t) && armed <= polls[j].t;
    RunExtendsFrom(polls, j, armed, t);
    assert (polls + [Sample(t, true)])[j] == polls[j];
  }

  lemma RunExtendsFrom(polls: seq<Sample>, j: nat, armed: nat, t: nat)
    requires HealthyRun(polls, j) && 0 <= t - LastPoll(armed, polls) < HEALTH_POLL_MAX_MS
    ensures HealthyRun(polls + [Sample(t, true)], j)
  {
    var after := polls + [Sample(t, true)];
    forall i | j <= i < |after| ensures after[i].healthy && (j < i ==>
        0 <= after[i].t - after[i - 1].t < HEALTH_POLL_MAX_MS) {
      if i < |polls| { assert after[i] == polls[i]; }
      if j < i { assert after[i - 1] == polls[i - 1]; }
    }
  }

  lemma RunStarts(polls: seq<Sample>, armed: nat, t: nat)
    requires armed <= t
    ensures Observed(polls + [Sample(t, true)], Millis(t), armed)
  {
    hide Millis;
    var after := polls + [Sample(t, true)];
    assert after[|polls|] == Sample(t, true);
    assert HealthyRun(after, |polls|);
  }

  /** A poll extends the healthy run, starts one, or ends it. */
  lemma PollStep(now: Runtime, armed: nat, polls: seq<Sample>, t: nat, healthy: bool)
    requires TrialInv(now, armed, polls) && 0 <= t - LastPoll(armed, polls) < 0x1_0000_0000 - HEALTH_MS
    ensures TrialInv(Poll(now, Millis(t), healthy).0, armed, polls + [Sample(t, healthy)])
  {
    hide Elapsed, Millis, Observed;
    if now.pending && !now.fatal {
      ElapsedIsSound(t, armed, HEALTH_MS);
      if now.origin != LegacyPush {
        ElapsedIsSound(t, LastPoll(armed, polls), HEALTH_POLL_MAX_MS);
        if healthy {
          RunStarts(polls, armed, t);
          if now.observing && !Elapsed(Millis(t), now.lastPoll, HEALTH_POLL_MAX_MS) { RunExtends(polls,
              now.healthyAt, armed, t); }
        }
      }
    }
  }

  lemma {:induction false} TrialGoes(k: Kit, id: Identity, rt: Runtime, armed: nat, calls: seq<Call>)
    requires TrialFrom(rt, armed) && Regular(armed, calls)
    ensures TrialInv(After(k, id, rt, calls), armed, Polls(calls))
    ensures After(k, id, rt, calls).origin == rt.origin
    ensures |calls| > 0 ==> LastPoll(armed, Polls(calls)) <= calls[|calls| - 1].t
    decreases |calls|
  {
    hide Elapsed, Millis, MayConfirm, Observed, Observe, TrialInv;
    if |calls| == 0 {
      assert TrialInv(rt, armed, []) by { TrialStarts(rt, armed); }
    } else {
      var before, last := calls[..|calls| - 1], calls[|calls| - 1];
      TrialGoes(k, id, rt, armed, before);
      var now := After(k, id, rt, before);
      if last.PollCall? { PollStep(now, armed, Polls(before), last.t, last.healthy); }
      StateIrrelevant(k, id, now, armed, Polls(before), last);
      OriginStays(now, Millis(last.t), true);
      OriginStays(now, Millis(last.t), false);
    }
  }

  lemma OriginStays(now: Runtime, t: u32, healthy: bool)
    ensures Poll(now, t, healthy).0.origin == now.origin
  {
  }

  lemma TrialStarts(rt: Runtime, armed: nat)
    requires TrialFrom(rt, armed)
    ensures TrialInv(rt, armed, [])
  {
  }

  lemma StateIrrelevant(k: Kit, id: Identity, now: Runtime, armed: nat, polls: seq<Sample>, call: Call)
    ensures TrialInv(now, armed, polls) && !call.PollCall? ==> TrialInv(Apply(k, id, now, call), armed, polls)
    ensures call.PollCall? ==>
      forall p: seq<Sample> :: TrialInv(Poll(now, Millis(call.t), call.healthy).0, armed, p) ==> TrialInv(Apply(k,
          id, now, call), armed, p)
  {
    hide Elapsed, Millis, MayConfirm, Observed, Observe, Poll;
  }

  /** Marked valid means: within 30 s of arm, and the journal names this very image. For a package there is also a
      run of healthy polls, each less than 250 ms after the one before, from at least 5 s ago up to now. */
  lemma MarkedMeansHealthy(k: Kit, id: Identity, rt: Runtime, armed: nat, calls: seq<Call>) returns (j: nat)
    requires |calls| > 0 && TrialFrom(rt, armed) && Regular(armed, calls)
    requires Marks(k, id, After(k, id, rt, calls[..|calls| - 1]), calls[|calls| - 1])
    ensures calls[|calls| - 1].t - armed < HEALTH_MS
    ensures Matches(k, id, After(k, id, rt, calls).expected) && ValidToken(After(k, id, rt, calls).transaction)
    ensures rt.origin != LegacyPush ==>
              var polls, t := Polls(calls), calls[|calls| - 1].t;
              HealthyRun(polls, j) && armed <= polls[j].t && t - polls[j].t >= LOCAL_HEALTH_MS &&
              0 <= t - LastPoll(armed, polls) < HEALTH_POLL_MAX_MS
  {
    hide Elapsed, Millis, Matches, Observe, Observed, HealthyRun, TrialInv;
    var before, last := calls[..|calls| - 1], calls[|calls| - 1];
    var now, t := After(k, id, rt, before), last.t;
    TrialGoes(k, id, rt, armed, before);
    TrialGoes(k, id, rt, armed, calls);
    var seen := if last.PollCall? then Poll(now, Millis(t), last.healthy).0 else now;
    if last.PollCall? {
      PollStep(now, armed, Polls(before), t, last.healthy);
      OriginStays(now, Millis(t), last.healthy);
    }
    j := HealthySpan(seen, armed, Polls(calls), t);
  }

  /** What the timers of a trial that may be confirmed now mean in true time. */
  lemma HealthySpan(seen: Runtime, armed: nat, polls: seq<Sample>, t: nat) returns (j: nat)
    requires TrialInv(seen, armed, polls) && seen.pending && !seen.fatal
    requires 0 <= t - LastPoll(armed, polls) < 0x1_0000_0000 - HEALTH_MS && !Elapsed(Millis(t), seen.started, HEALTH_MS)
    requires seen.origin != LegacyPush ==>
             seen.observing && Elapsed(Millis(t), seen.healthyAt, LOCAL_HEALTH_MS) &&
             !Elapsed(Millis(t), seen.lastPoll, HEALTH_POLL_MAX_MS)
    ensures t - armed < HEALTH_MS
    ensures seen.origin != LegacyPush ==>
              HealthyRun(polls, j) && armed <= polls[j].t && t - polls[j].t >= LOCAL_HEALTH_MS &&
              0 <= t - LastPoll(armed, polls) < HEALTH_POLL_MAX_MS
  {
    hide Elapsed, Millis;
    ElapsedIsSound(t, armed, HEALTH_MS);
    j := 0;
    if seen.origin != LegacyPush {
      j :| HealthyRun(polls, j) && seen.healthyAt == Millis(polls[j].t) && armed <= polls[j].t;
      StartIsPast(polls, j);
      ElapsedIsSound(t, polls[j].t, LOCAL_HEALTH_MS);
      ElapsedIsSound(t, LastPoll(armed, polls), HEALTH_POLL_MAX_MS);
    }
  }

  lemma {:induction false} StartIsPast(polls: seq<Sample>, j: nat)
    requires HealthyRun(polls, j)
    ensures polls[j].t <= polls[|polls| - 1].t
    decreases |polls| - j
  {
    if j + 1 < |polls| {
      assert polls[j + 1].t - polls[j].t >= 0;
      StartIsPast(polls, j + 1);
    }
  }

  /** The first poll 30 s after arm, the clock wrapped or not, asks for the rollback if the trial is still going. */
  lemma LatePollGivesUp(k: Kit, id: Identity, rt: Runtime, armed: nat, calls: seq<Call>, t: nat, healthy: bool,
      marks: bool)
    requires TrialFrom(rt, armed) && Regular(armed, calls + [PollCall(t, healthy, marks)])
    requires After(k, id, rt, calls).pending && t - armed >= HEALTH_MS
    ensures Poll(After(k, id, rt, calls), Millis(t), healthy) == (RollbackReturned(After(k, id, rt, calls)), Rollback)
    ensures var after := Poll(After(k, id, rt, calls), Millis(t), healthy).0; after.fatal && !after.pending
  {
    hide Elapsed, Millis, Observe, Observed;
    assert (calls + [PollCall(t, healthy, marks)])[..|calls|] == calls;
    TrialGoes(k, id, rt, armed, calls);
    ElapsedIsSound(t, armed, HEALTH_MS);
  }

  /** Whatever came before, a marking is on time exactly when the clock has not wrapped since arm. */
  lemma OnTimeUnlessWrapped(k: Kit, id: Identity, rt: Runtime, armed: nat, call: Call)
    requires rt.started == Millis(armed) && armed <= call.t && Marks(k, id, rt, call)
    ensures call.t - armed < HEALTH_MS <==> call.t - armed < 0x1_0000_0000
  {
    hide Elapsed, Millis, Matches, Observe;
    ElapsedIsSound(call.t, armed, HEALTH_MS);
  }

  /** A heartbeat the watchdog does not take is a fault. */
  lemma WatchdogStops(k: Kit, id: Identity, rt: Runtime, t: nat)
    ensures var after := Apply(k, id, rt, WatchdogFault(t)); after.fatal && after.pending == rt.pending
  {
  }

  /** A device that is not polled for 2^32 ms still confirms a legacy push. This is a fact about the decision alone: on
      the device every pass polls and feeds a watchdog of 10 s, so a loop that stood still that long has been reset. */
  lemma UnpolledConfirmIsLate(k: Kit, id: Identity, rt: Runtime, armed: nat)
    requires TrialFrom(rt, armed) && !rt.fatal && rt.origin == LegacyPush
    requires ValidToken(rt.transaction) && Matches(k, id, rt.expected)
    ensures var call := ConfirmCall(armed + 0x1_0000_0000, rt.transaction, true, true);
            Marks(k, id, rt, call) && call.t - armed >= HEALTH_MS && !Regular(armed, [call])
  {
    hide Matches, ValidToken;
    var call := ConfirmCall(armed + 0x1_0000_0000, rt.transaction, true, true);
    assert [call][..0] == [];
    assert Millis(armed) == Millis(call.t);
  }

  // ---- When a trial is confirmed ------------------------------------------------------------------------------

  /** Nothing but polls, the mark call working. */
  function Pollings(polls: seq<Sample>): seq<Call>
    decreases |polls|
  {
    if |polls| == 0 then []
    else
      var last := polls[|polls| - 1];
      Pollings(polls[..|polls| - 1]) + [PollCall(last.t, last.healthy, true)]
  }

  /** So far the runtime was only polled, and the mark call works. */
  predicate OnlyPolled(calls: seq<Call>) {
    calls == Pollings(Polls(calls))
  }

  lemma PollingsGrow(calls: seq<Call>, t: nat, healthy: bool)
    requires OnlyPolled(calls)
    ensures OnlyPolled(calls + [PollCall(t, healthy, true)])
  {
    var more, sample := calls + [PollCall(t, healthy, true)], Sample(t, healthy);
    assert more[..|calls|] == calls;
    assert (Polls(calls) + [sample])[..|Polls(calls)|] == Polls(calls);
  }

  lemma PollingsExtend(k: Kit, id: Identity, rt: Runtime, polls: seq<Sample>)
    requires |polls| > 0
    ensures var before, last := polls[..|polls| - 1], polls[|polls| - 1];
            After(k, id, rt, Pollings(polls)) ==
            Apply(k, id, After(k, id, rt, Pollings(before)), PollCall(last.t, last.healthy, true))
  {
    hide Apply;
    var calls := Pollings(polls);
    assert calls[..|calls| - 1] == Pollings(polls[..|polls| - 1]);
  }

  /** Polls that have been healthy for 5 s, less than 250 ms apart. */
  predicate HealthyFor5s(polls: seq<Sample>, j: nat) {
    && j < |polls| && polls[|polls| - 1].t - polls[j].t >= 5000
    && (forall i | j <= i < |polls| :: polls[i].healthy)
    && forall i | j < i < |polls| :: 0 <= polls[i].t - polls[i - 1].t < 250
  }

  ghost predicate OnceHealthyFor5s(polls: seq<Sample>) {
    exists n: nat, j: nat :: n <= |polls| && HealthyFor5s(polls[..n], j)
  }

  /** In order, and less than 30 s after arm. */
  predicate TrialPolls(armed: nat, polls: seq<Sample>) {
    && (forall i, j | 0 <= i < j < |polls| :: polls[i].t <= polls[j].t)
    && forall i | 0 <= i < |polls| :: armed <= polls[i].t < armed + 30000
  }

  /** A trial still going: its timers name the last poll and the start of the last healthy run. */
  ghost predicate Watching(now: Runtime, rt: Runtime, armed: nat, polls: seq<Sample>, start: nat) {
    && now == rt.(observing := now.observing, healthyAt := now.healthyAt, lastPoll := now.lastPoll)
    && now.lastPoll == Millis(LastPoll(armed, polls))
    && (now.observing <==> |polls| > 0 && polls[|polls| - 1].healthy)
    && (now.observing ==> HealthyRun(polls, start) && now.healthyAt == Millis(polls[start].t) &&
                          forall j: nat | HealthyRun(polls, j) :: start <= j)
  }

  /** The trial of a package whose journal matches is confirmed exactly once its polls have been healthy for 5 s. */
  lemma {:induction false} ConfirmsExactly(k: Kit, id: Identity, rt: Runtime, armed: nat, polls: seq<Sample>)
    returns (start: nat)
    requires TrialFrom(rt, armed) && !rt.fatal && rt.origin != LegacyPush && TrialPolls(armed, polls)
    requires Matches(k, id, rt.expected) && ValidToken(rt.transaction)
    ensures var now := After(k, id, rt, Pollings(polls));
            && (!now.pending <==> OnceHealthyFor5s(polls))
            && (!now.pending ==> now.state == ValidImage && !now.fatal)
            && (now.pending ==> Watching(now, rt, armed, polls, start))
    decreases |polls|
  {
    hide After, Apply, Pollings, Matches, ValidToken, OnceHealthyFor5s, HealthyFor5s, Watching, TrialFrom, TrialPolls;
    if |polls| == 0 {
      start := 0;
      NothingSeen(k, id, rt, armed);
      NothingHealthy();
    } else {
      var before, last := polls[..|polls| - 1], polls[|polls| - 1];
      EarlierPolls(armed, polls);
      start := ConfirmsExactly(k, id, rt, armed, before);
      PollingsExtend(k, id, rt, polls);
      var prior := After(k, id, rt, Pollings(before));
      OnceExtends(polls);
      assert before + [last] == polls;
      if prior.pending {
        start := WatchStep(k, id, prior, rt, armed, before, start, last);
      } else {
        SettledStays(k, id, prior, last);
      }
    }
  }

  lemma NothingSeen(k: Kit, id: Identity, rt: Runtime, armed: nat)
    requires TrialFrom(rt, armed)
    ensures After(k, id, rt, Pollings([])) == rt && rt.pending && Watching(rt, rt, armed, [], 0)
  {
  }

  lemma EarlierPolls(armed: nat, polls: seq<Sample>)
    requires TrialPolls(armed, polls) && |polls| > 0
    ensures TrialPolls(armed, polls[..|polls| - 1])
  {
  }

  lemma NothingHealthy()
    ensures !OnceHealthyFor5s([])
  {
  }

  lemma SettledStays(k: Kit, id: Identity, now: Runtime, last: Sample)
    requires !now.pending
    ensures Apply(k, id, now, PollCall(last.t, last.healthy, true)) == now
  {
    hide Elapsed, Matches, ValidToken;
  }

  lemma OnceExtends(polls: seq<Sample>)
    requires |polls| > 0
    ensures OnceHealthyFor5s(polls) <==>
              OnceHealthyFor5s(polls[..|polls| - 1]) || exists j: nat :: HealthyFor5s(polls, j)
  {
    hide HealthyFor5s;
    var before := polls[..|polls| - 1];
    assert polls[..|polls|] == polls;
    forall n: nat | n < |polls| ensures before[..n] == polls[..n] {}
  }

  /** One more poll of a trial: it is confirmed now if the run has lasted 5 s, and watched on otherwise. */
  lemma WatchStep(k: Kit, id: Identity, now: Runtime, rt: Runtime, armed: nat, polls: seq<Sample>, start: nat,
      last: Sample)
    returns (next: nat)
    requires TrialFrom(rt, armed) && !rt.fatal && rt.origin != LegacyPush && TrialPolls(armed, polls + [last])
    requires Matches(k, id, rt.expected) && ValidToken(rt.transaction) && Watching(now, rt, armed, polls, start)
    ensures var after := Apply(k, id, now, PollCall(last.t, last.healthy, true));
            && (!after.pending <==> exists j: nat :: HealthyFor5s(polls + [last], j))
            && (!after.pending ==> after.state == ValidImage && !after.fatal)
            && (after.pending ==> Watching(after, rt, armed, polls + [last], next))
  {
    hide Elapsed, Millis, Matches, ValidToken, HealthyFor5s, TrialPolls, Apply, Observe;
    var all := polls + [last];
    next := if now.observing && last.t - LastPoll(armed, polls) < 250 then start else |polls|;
    Ordered(armed, polls, last);
    ElapsedIsSound(last.t, LastPoll(armed, polls), 250);
    SeesRun(now, Millis(last.t), last.healthy);
    if last.healthy {
      NextRun(polls, armed, last, now.observing, start, next);
      assert armed <= all[next].t <= last.t;
      ElapsedIsSound(last.t, all[next].t, 5000);
    }
    FiveSeconds(all, next);
    PollDecides(k, id, now, armed, last);
  }

  lemma Ordered(armed: nat, polls: seq<Sample>, last: Sample)
    requires TrialPolls(armed, polls + [last])
    ensures var all := polls + [last];
            && all[|all| - 1] == last && LastPoll(armed, all) == last.t &&
                armed <= LastPoll(armed, polls) <= last.t < armed + 30000
            && (forall i, j | 0 <= i < j < |all| :: all[i].t <= all[j].t)
            && forall i | 0 <= i < |all| :: armed <= all[i].t <= last.t
  {
    var all := polls + [last];
    if |polls| > 0 { assert all[|polls| - 1] == polls[|polls| - 1]; }
    forall i | 0 <= i < |all| ensures armed <= all[i].t <= last.t {
      if i < |polls| { assert all[i].t <= all[|polls|].t; }
    }
  }

  /** What a poll of a package's trial observes. */
  lemma SeesRun(now: Runtime, t: u32, healthy: bool)
    ensures var seen := Observe(now, t, healthy);
            seen == now.(observing := healthy, lastPoll := t,
                         healthyAt := if healthy && !(now.observing && !Elapsed(t, now.lastPoll, 250)) then t
                                      else now.healthyAt)
  {
    hide Elapsed;
  }

  /** And what it decides, on time. */
  lemma PollDecides(k: Kit, id: Identity, now: Runtime, armed: nat, last: Sample)
    requires now.pending && !now.fatal && now.origin != LegacyPush && now.started == Millis(armed)
    requires Matches(k, id, now.expected) && ValidToken(now.transaction) && armed <= last.t < armed + 30000
    ensures var seen := Observe(now, Millis(last.t), last.healthy);
            Apply(k, id, now, PollCall(last.t, last.healthy, true)) ==
            if last.healthy && Elapsed(Millis(last.t), seen.healthyAt, 5000) then MarkedValidState(seen) else seen
  {
    hide Elapsed, Millis, Matches, ValidToken;
    ElapsedIsSound(last.t, armed, HEALTH_MS);
    ElapsedIsSound(last.t, last.t, HEALTH_POLL_MAX_MS);
  }

  /** Where the healthy run of a poll began. */
  lemma NextRun(polls: seq<Sample>, armed: nat, last: Sample, observing: bool, start: nat, next: nat)
    requires last.healthy && TrialPolls(armed, polls + [last])
    requires observing <==> |polls| > 0 && polls[|polls| - 1].healthy
    requires observing ==> HealthyRun(polls, start) && forall j: nat | HealthyRun(polls, j) :: start <= j
    requires next == if observing && last.t - LastPoll(armed, polls) < 250 then start else |polls|
    ensures HealthyRun(polls + [last], next) && forall j: nat | HealthyRun(polls + [last], j) :: next <= j
  {
    var all := polls + [last];
    Ordered(armed, polls, last);
    if next == start && next < |polls| {
      RunExtendsFrom(polls, start, armed, last.t);
      assert last == Sample(last.t, true);
    }
    forall j: nat | HealthyRun(all, j) ensures next <= j {
      if j < |polls| {
        assert all[|polls|].t - all[|polls| - 1].t < HEALTH_POLL_MAX_MS;
        assert all[|polls| - 1].healthy;
        assert HealthyRun(polls, j) by {
          forall i | j <= i < |polls| ensures polls[i].healthy { assert all[i].healthy; }
          forall i | j < i < |polls| ensures 0 <= polls[i].t - polls[i - 1].t < HEALTH_POLL_MAX_MS {
            assert all[i] == polls[i] && all[i - 1] == polls[i - 1];
          }
        }
      }
    }
  }

  /** The longest healthy run decides. */
  lemma FiveSeconds(polls: seq<Sample>, start: nat)
    requires |polls| > 0 && forall i, j | 0 <= i < j < |polls| :: polls[i].t <= polls[j].t
    requires polls[|polls| - 1].healthy ==>
               HealthyRun(polls, start) && forall j: nat | HealthyRun(polls, j) :: start <= j
    ensures (exists j: nat :: HealthyFor5s(polls, j)) <==>
            polls[|polls| - 1].healthy && polls[|polls| - 1].t - polls[start].t >= 5000
  {
    forall j: nat | HealthyFor5s(polls, j) ensures HealthyRun(polls, j) && polls[start].t <= polls[j].t {
      assert polls[|polls| - 1].healthy && HealthyRun(polls, j) && start <= j;
      if start < j { assert polls[start].t <= polls[j].t; }
    }
    if polls[|polls| - 1].healthy &&
        polls[|polls| - 1].t - polls[start].t >= 5000 { assert HealthyFor5s(polls, start); }
  }

  /** The trial of a legacy push is confirmed exactly by a healthy request with its transaction within 30 s of arm. */
  lemma LegacyConfirmsExactly(k: Kit, id: Identity, rt: Runtime, armed: nat, t: nat, token: seq<byte>, healthy: bool)
    requires TrialFrom(rt, armed) && !rt.fatal && rt.origin == LegacyPush && armed <= t < armed + 0x1_0000_0000
    requires Matches(k, id, rt.expected) && ValidToken(rt.transaction)
    ensures Marks(k, id, rt, ConfirmCall(t, token, healthy, true)) <==>
            token == rt.transaction && healthy && t - armed < 30000
  {
    hide Elapsed, Millis, Matches, ValidToken;
    ElapsedIsSound(t, armed, HEALTH_MS);
  }

  /** These calls are the device's: same runtime afterwards, and a durable marking exactly when the call marks. */
  lemma PollOfDevice(k: Kit, s: OtaRuns.Device, t: nat, healthy: bool, mark: OtaRuns.MarkEnv)
    requires OtaRuns.Shaped(s)
    ensures var call := PollCall(t, healthy, mark.marks); var r := OtaRuns.PollRun(k, s, Millis(t), healthy, mark);
            r.0.rt == Apply(k, OtaRuns.Id(k, s), s.rt, call) &&
            r.0.d.history ==
            s.d.history + (if Marks(k, OtaRuns.Id(k, s), s.rt, call) then [Hardware.MarkedValid(true)] else [])
  {
    hide MayConfirm, Observe;
  }

  lemma ConfirmOfDevice(k: Kit, s: OtaRuns.Device, t: nat, token: seq<byte>, healthy: bool, mark: OtaRuns.MarkEnv)
    requires OtaRuns.Shaped(s)
    ensures var call := ConfirmCall(t, token, healthy, mark.marks);
            var r := OtaRuns.ConfirmRun(k, s, token, healthy, Millis(t), mark);
            r.0.rt == Apply(k, OtaRuns.Id(k, s), s.rt, call) &&
            r.0.d.history ==
            s.d.history + (if Marks(k, OtaRuns.Id(k, s), s.rt, call) then [Hardware.MarkedValid(false)] else [])
  {
    hide MayConfirm;
  }

  // ---- The calls of a pass ------------------------------------------------------------------------------------

  /** The true time of the last call. */
  function LastTime(armed: nat, calls: seq<Call>): nat {
    if |calls| == 0 then armed else calls[|calls| - 1].t
  }

  lemma {:induction false} RegularPrefix(armed: nat, a: seq<Call>, b: seq<Call>)
    requires Regular(armed, a + b)
    ensures Regular(armed, a)
    decreases |b|
  {
    if |b| == 0 {
      assert a + b == a;
    } else {
      assert (a + b)[..|a + b| - 1] == a + b[..|b| - 1];
      RegularPrefix(armed, a, b[..|b| - 1]);
    }
  }

  /** Nothing but a trial's base is pending, and transaction and origin stay. */
  lemma {:induction false} BaseDecides(k: Kit, id: Identity, base: Runtime, calls: seq<Call>)
    ensures After(k, id, base, calls).pending ==> base.pending
    ensures After(k, id, base, calls).transaction == base.transaction
    ensures After(k, id, base, calls).origin == base.origin
    decreases |calls|
  {
    hide MayConfirm, Elapsed, Millis;
    if |calls| > 0 { BaseDecides(k, id, base, calls[..|calls| - 1]); }
  }

  lemma OneMore(k: Kit, id: Identity, base: Runtime, calls: seq<Call>, call: Call)
    ensures After(k, id, base, calls + [call]) == Apply(k, id, After(k, id, base, calls), call)
    ensures Polls(calls + [call]) ==
            Polls(calls) + (if call.PollCall? then [Sample(call.t, call.healthy)] else [])
  {
    hide Apply;
    assert (calls + [call])[..|calls|] == calls;
  }

  lemma SpanIs5s(polls: seq<Sample>, j: nat)
    requires HealthyRun(polls, j) && polls[|polls| - 1].t - polls[j].t >= 5000
    ensures HealthyFor5s(polls, j)
  {
  }

  lemma RunIsInside(polls: seq<Sample>, j: nat)
    requires HealthyRun(polls, j)
    ensures j < |polls|
  {
  }

  /** A poll that marks. */
  lemma PollMarked(k: Kit, id: Identity, base: Runtime, armed: nat, calls: seq<Call>, poll: Call)
    requires (base.pending ==> TrialFrom(base, armed)) && poll.PollCall? && Regular(armed, calls + [poll])
    requires Marks(k, id, After(k, id, base, calls), poll)
    ensures poll.t - armed < 30000 && exists j: nat :: HealthyFor5s(Polls(calls + [poll]), j)
  {
    hide TrialFrom, Regular, HealthyRun, Matches, ValidToken;
    var all := calls + [poll];
    assert all[..|calls|] == calls;
    BaseDecides(k, id, base, calls);
    OneMore(k, id, base, calls, poll);
    PollAsks(k, id, After(k, id, base, calls), poll);
    var j := MarkedMeansHealthy(k, id, base, armed, all);
    SpanIs5s(Polls(all), j);
  }

  /** Polls ask for packages on trial only. */
  lemma PollAsks(k: Kit, id: Identity, now: Runtime, poll: Call)
    requires poll.PollCall? && Marks(k, id, now, poll)
    ensures now.pending && now.origin != LegacyPush
  {
    hide Matches, ValidToken, Elapsed, Millis;
  }

  /** A confirmation that marks, in the pass of the last poll. */
  lemma ConfirmMarked(k: Kit, id: Identity, base: Runtime, armed: nat, calls: seq<Call>, confirm: Call)
    requires (base.pending ==> TrialFrom(base, armed)) && confirm.ConfirmCall? && Regular(armed, calls + [confirm])
    requires Marks(k, id, After(k, id, base, calls), confirm) && LastPoll(armed, Polls(calls)) == confirm.t
    ensures confirm.t - armed < 30000 && confirm.healthy && confirm.token == base.transaction
    ensures base.origin != LegacyPush ==> exists j: nat :: HealthyFor5s(Polls(calls), j)
  {
    hide TrialFrom, Regular, HealthyRun, Matches, ValidToken;
    var all := calls + [confirm];
    assert all[..|calls|] == calls;
    BaseDecides(k, id, base, calls);
    OneMore(k, id, base, calls, confirm);
    var j := MarkedMeansHealthy(k, id, base, armed, all);
    if base.origin != LegacyPush {
      RunIsInside(Polls(calls), j);
      SpanIs5s(Polls(calls), j);
    }
  }

  /** A pass's poll, perhaps a confirmation, perhaps a watchdog fault, all at its time. */
  predicate PassCalls(poll: Call, confirm: seq<Call>, fault: seq<Call>) {
    && poll.PollCall? && |confirm| <= 1 && |fault| <= 1
    && (|confirm| == 1 ==> confirm[0].ConfirmCall? && confirm[0].t == poll.t)
    && (|fault| == 1 ==> fault[0] == WatchdogFault(poll.t))
  }

  lemma PassIsRegular(armed: nat, calls: seq<Call>, poll: Call, confirm: seq<Call>, fault: seq<Call>)
    requires PassCalls(poll, confirm, fault) && LastTime(armed, calls) <= poll.t
    ensures var all := calls + [poll] + confirm + fault;
            && Polls(all) == Polls(calls) + [Sample(poll.t, poll.healthy)]
            && LastTime(armed, all) == poll.t
            && (Regular(armed, calls) && poll.t - LastPoll(armed, Polls(calls)) < 0x1_0000_0000 - 30000 ==>
                  Regular(armed, all))
  {
    hide Regular;
    var one := calls + [poll];
    var two := one + confirm;
    var paced := Regular(armed, calls) && poll.t - LastPoll(armed, Polls(calls)) < 0x1_0000_0000 - 30000;
    CallAdded(armed, calls, poll);
    if |confirm| == 1 {
      assert two == one + [confirm[0]];
      CallAdded(armed, one, confirm[0]);
    } else {
      assert two == one;
    }
    var all := two + fault;
    if |fault| == 1 {
      assert all == two + [fault[0]];
      CallAdded(armed, two, fault[0]);
    } else {
      assert all == two;
    }
  }

  lemma CallAdded(armed: nat, calls: seq<Call>, call: Call)
    requires LastTime(armed, calls) <= call.t
    ensures Polls(calls + [call]) ==
            Polls(calls) + (if call.PollCall? then [Sample(call.t, call.healthy)] else [])
    ensures Regular(armed, calls) && call.t - LastPoll(armed, Polls(calls)) < 0x1_0000_0000 - 30000 ==>
              Regular(armed, calls + [call])
    ensures LastTime(armed, calls + [call]) == call.t
  {
    assert (calls + [call])[..|calls|] == calls;
  }

  /** What such a pass means for a trial. */
  lemma PassMeansHealthy(k: Kit, id: Identity, base: Runtime, armed: nat, calls: seq<Call>, poll: Call,
      confirm: seq<Call>, fault: seq<Call>)
    requires (base.pending ==> TrialFrom(base, armed)) && PassCalls(poll, confirm, fault)
    requires LastTime(armed, calls) <= poll.t && Regular(armed, calls + [poll] + confirm + fault)
    ensures var before, polls := After(k, id, base, calls), Polls(calls + [poll] + confirm + fault);
            && (Marks(k, id, before, poll) ==>
                  poll.t - armed < 30000 && exists j: nat :: HealthyFor5s(polls, j))
            && (|confirm| == 1 && Marks(k, id, After(k, id, base, calls + [poll]), confirm[0]) ==>
                  poll.t - armed < 30000 && confirm[0].healthy && confirm[0].token == base.transaction &&
                  (base.origin != LegacyPush ==> exists j: nat :: HealthyFor5s(polls, j)))
            && (before.pending && poll.t - armed >= 30000 ==>
                  Poll(before, Millis(poll.t), poll.healthy).1 == OtaSpec.Rollback)
  {
    hide TrialFrom, Regular, HealthyFor5s, Marks, After, Poll, Polls;
    var before, one := After(k, id, base, calls), calls + [poll];
    var two := one + confirm;
    PassIsRegular(armed, calls, poll, confirm, fault);
    OneMore(k, id, base, calls, poll);
    RegularPrefix(armed, two, fault);
    RegularPrefix(armed, one, confirm);
    if Marks(k, id, before, poll) { PollMarked(k, id, base, armed, calls, poll); }
    if |confirm| == 1 && Marks(k, id, After(k, id, base, one), confirm[0]) {
      assert two == one + [confirm[0]];
      ConfirmMarked(k, id, base, armed, one, confirm[0]);
    }
    BaseDecides(k, id, base, calls);
    if before.pending && poll.t - armed >= 30000 {
      LatePollGivesUp(k, id, base, armed, calls, poll.t, poll.healthy, poll.marks);
    }
  }

  /** arm leaves a trial's timers so. */
  lemma ArmStartsTrial(image: Hardware.ImageState, armed: nat, env: ArmEnv)
    ensures var rt := Arm(image, Millis(armed), env); rt.pending ==> TrialFrom(rt, armed)
  {
    hide Millis;
  }

  /** And begin keeps them. */
  lemma BeginKeepsTrial(rt: Runtime, armed: nat, nvs: Hardware.Blobs, k: Kit, id: Identity, env: BeginEnv)
    requires rt.pending ==> TrialFrom(rt, armed)
    ensures var begun := BeginRuntime(rt, nvs, k, id, env).0; begun.pending ==> TrialFrom(begun, armed)
  {
    hide Millis, ReadContext, ReadJournal, ContextMatches, Matches;
  }
}
