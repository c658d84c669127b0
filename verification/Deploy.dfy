/** The host's deployment record: ota_controller.py's deploy and reconcile, killed at any step. */
module Deploy {
  import opened Bytes

  datatype BootReport = ReportsValid | ReportsPending | ReportsRolledBack | ReportsOther

  /** One answer of the device's status request. */
  datatype Report = Report(buildId: seq<byte>, version: nat, keyId: seq<byte>, transaction: seq<byte>, boot: BootReport,
                           healthy: bool)

  datatype Release = Release(buildId: seq<byte>, version: nat, keyId: seq<byte>, sha256: seq<byte>)

  datatype Outcome = InProgress | Succeeded | Failed | Unknown

  datatype Record = Record(outcome: Outcome, buildId: seq<byte>, sha256: seq<byte>, transaction: Option<seq<byte>>)

  /** What survives the tool, and what it did to the device: the tokens it uploaded under, and the transactions of the
      SUCCESS records it ever wrote. */
  datatype Ledger = Ledger(record: Option<Record>, uploads: seq<seq<byte>>, wins: seq<Option<seq<byte>>>)

  const NO_LEDGER := Ledger(None, [], [])

  predicate Identified(report: Report, release: Release, token: seq<byte>) {
    report.buildId == release.buildId && report.version == release.version && report.keyId == release.keyId &&
    report.transaction == token
  }

  /** reconcile over the answers before its deadline; None is an answer that could not be read. */
  function Reconciled(answers: seq<Option<Report>>, release: Release, token: seq<byte>): bool {
    if |answers| == 0 then false
    else
      var rest := Reconciled(answers[1..], release, token);
      match answers[0]
      case None => rest
      case Some(report) =>
        if Identified(report, release, token) then report.boot == ReportsValid || rest
        else if report.boot == ReportsRolledBack && report.transaction == token then false
        else rest
  }

  /** The device said VALID for this release and transaction. */
  predicate Reported(answers: seq<Option<Report>>, release: Release, token: seq<byte>) {
    exists i :: 0 <= i < |answers| && answers[i].Some? && Identified(answers[i].value, release, token) &&
                answers[i].value.boot == ReportsValid
  }

  /** The answer is about this release and transaction, on trial and healthy: it is acknowledged. */
  predicate Pending(answer: Option<Report>, release: Release, token: seq<byte>) {
    answer.Some? && Identified(answer.value, release, token) && answer.value.boot == ReportsPending &&
        answer.value.healthy
  }

  predicate Valid(answer: Option<Report>, release: Release, token: seq<byte>) {
    answer.Some? && Identified(answer.value, release, token) && answer.value.boot == ReportsValid
  }

  /** Another image is back, and the transaction was this one. */
  predicate RolledBack(answer: Option<Report>, release: Release, token: seq<byte>) {
    answer.Some? && !Identified(answer.value, release, token) && answer.value.boot == ReportsRolledBack &&
    answer.value.transaction == token
  }

  /** None of the first n answers decides. */
  predicate Undecided(answers: seq<Option<Report>>, release: Release, token: seq<byte>, n: nat) {
    n <= |answers| &&
    forall i | 0 <= i < n :: !Valid(answers[i], release, token) && !RolledBack(answers[i], release, token)
  }

  /** The polling loop; acknowledged lists the answers after which the confirm request was sent. */
  method ReconcileLoop(answers: seq<Option<Report>>, release: Release, token: seq<byte>)
    returns (ok: bool, acknowledged: seq<nat>)
    ensures ok == Reconciled(answers, release, token)
    ensures forall i: nat :: i in acknowledged <==>
              i < |answers| && Pending(answers[i], release, token) && Undecided(answers, release, token, i)
  {
    var i := 0;
    acknowledged := [];
    while i < |answers|
      invariant 0 <= i <= |answers| && Undecided(answers, release, token, i)
      invariant Reconciled(answers, release, token) == Reconciled(answers[i..], release, token)
      invariant forall j: nat :: j in acknowledged <==> j < i && Pending(answers[j], release, token)
    {
      if answers[i].Some? {
        var report := answers[i].value;
        if Identified(report, release, token) {
          if report.boot == ReportsValid { return true, acknowledged; }
          if report.boot == ReportsPending && report.healthy { acknowledged := acknowledged + [i]; }
        } else if report.boot == ReportsRolledBack && report.transaction == token {
          return false, acknowledged;
        }
      }
      assert answers[i..][1..] == answers[i + 1..];
      i := i + 1;
    }
    return false, acknowledged;
  }

  /** Reconciling succeeds exactly if some answer reports the release valid before any reports it rolled back; answers
      that cannot be read, or are about something else, change nothing. */
  lemma {:induction false} ReconciledExactly(answers: seq<Option<Report>>, release: Release, token: seq<byte>)
    ensures Reconciled(answers, release, token) <==>
            exists i: nat :: i < |answers| && Valid(answers[i], release, token) && Undecided(answers, release, token, i)
    decreases |answers|
  {
    if |answers| > 0 {
      var rest := answers[1..];
      ReconciledExactly(rest, release, token);
      var first := answers[0];
      if Valid(first, release, token) {
        assert Undecided(answers, release, token, 0);
      } else if RolledBack(first, release, token) {
        forall i: nat | i < |answers| &&
            Undecided(answers, release, token, i) ensures !Valid(answers[i], release, token) {}
      } else {
        forall i: nat | i < |rest| ensures Undecided(rest, release, token, i) <==> Undecided(answers, release, token,
            i + 1) {
          assert forall j | 0 <= j < i :: rest[j] == answers[j + 1];
          assert forall j | 0 < j < i + 1 :: answers[j] == rest[j - 1];
        }
        if i: nat :| i < |rest| && Valid(rest[i], release, token) && Undecided(rest, release, token, i) {
          assert answers[i + 1] == rest[i] && Undecided(answers, release, token, i + 1);
        }
        forall i: nat | i < |answers| && Valid(answers[i], release, token) && Undecided(answers, release, token, i)
          ensures i > 0 && rest[i - 1] == answers[i] && Undecided(rest, release, token, i - 1) {}
      }
    }
  }

  lemma {:induction false} ReconciledIsReported(answers: seq<Option<Report>>, release: Release, token: seq<byte>)
    requires Reconciled(answers, release, token)
    ensures Reported(answers, release, token)
  {
    if answers[0].Some? && Identified(answers[0].value, release, token) && answers[0].value.boot == ReportsValid {
    } else {
      ReconciledIsReported(answers[1..], release, token);
      var i :| 0 <= i < |answers[1..]| && answers[1..][i].Some? && Identified(answers[1..][i].value, release, token) &&
        answers[1..][i].value.boot == ReportsValid;
      assert answers[i + 1] == answers[1..][i];
    }
  }

  // ---- One run ------------------------------------------------------------------------------------------------

  datatype Preflight = Refused | AlreadyCurrent | Ready

  /** What the device and the file system answer during a run; prepared is the token, if there is a usable one and it
      could be recorded. */
  datatype Env = Env(preflight: Preflight, prepared: Option<seq<byte>>, recorded: bool, answers: seq<Option<Report>>)

  datatype Action = Write(record: Record) | Upload(token: seq<byte>)

  /** Everything a run does that lasts, in order. */
  function Actions(prior: Option<Record>, release: Release, env: Env): seq<Action> {
    if prior.Some? && (prior.value.outcome == Failed || prior.value.outcome == Unknown) then []
    else if prior.Some? && prior.value.outcome == InProgress then
      if prior.value.sha256 != release.sha256 || prior.value.transaction.None? then []
      else [Write(prior.value.(outcome := Verdict(env.answers, release, prior.value.transaction.value)))]
    else if env.preflight != Ready then []
    else
      var intent := Record(InProgress, release.buildId, release.sha256, None);
      if env.prepared.None? then [Write(intent), Write(intent.(outcome := Failed))]
      else
        var known := intent.(transaction := env.prepared);
        if !env.recorded then [Write(intent), Write(known.(outcome := Failed))]
        else [Write(intent), Write(known), Upload(env.prepared.value),
              Write(known.(outcome := Verdict(env.answers, release, env.prepared.value)))]
  }

  function Verdict(answers: seq<Option<Report>>, release: Release, token: seq<byte>): Outcome {
    if Reconciled(answers, release, token) then Succeeded else Failed
  }

  function Apply(l: Ledger, a: Action): Ledger {
    match a
    case Write(record) =>
      l.(record := Some(record), wins := if record.outcome == Succeeded then l.wins + [record.transaction] else l.wins)
    case Upload(token) => l.(uploads := l.uploads + [token])
  }

  function ApplyAll(l: Ledger, actions: seq<Action>): Ledger
    decreases |actions|
  {
    if |actions| == 0 then l else ApplyAll(Apply(l, actions[0]), actions[1..])
  }

  /** The ledgers after each action. */
  function Trail(l: Ledger, actions: seq<Action>): seq<Ledger>
    decreases |actions|
  {
    if |actions| == 0 then [] else [Apply(l, actions[0])] + Trail(Apply(l, actions[0]), actions[1..])
  }

  lemma Two(l: Ledger, a: Action, b: Action)
    ensures ApplyAll(l, [a, b]) == Apply(Apply(l, a), b)
    ensures Trail(l, [a, b]) == [Apply(l, a), Apply(Apply(l, a), b)]
  {
    assert [a, b][1..] == [b] && [b][1..] == [];
    assert ApplyAll(l, [a, b]) == ApplyAll(Apply(l, a), [b]) == ApplyAll(Apply(Apply(l, a), b), []);
    assert Trail(l, [a, b]) == [Apply(l, a)] + Trail(Apply(l, a), [b]);
    assert Trail(Apply(l, a), [b]) == [Apply(Apply(l, a), b)] + Trail(Apply(Apply(l, a), b), []);
  }

  lemma Four(l: Ledger, a: Action, b: Action, c: Action, d: Action)
    ensures var m := Apply(Apply(l, a), b);
            ApplyAll(l, [a, b, c, d]) == Apply(Apply(m, c), d) &&
            Trail(l, [a, b, c, d]) == [Apply(l, a), m, Apply(m, c), Apply(Apply(m, c), d)]
  {
    var m := Apply(Apply(l, a), b);
    assert [a, b, c, d][1..] == [b, c, d] && [b, c, d][1..] == [c, d];
    Two(m, c, d);
    assert ApplyAll(l, [a, b, c, d]) == ApplyAll(Apply(l, a), [b, c, d]) == ApplyAll(m, [c, d]);
    assert Trail(l, [a, b, c, d]) == [Apply(l, a)] + Trail(Apply(l, a), [b, c, d]);
    assert Trail(Apply(l, a), [b, c, d]) == [m] + Trail(m, [c, d]);
  }

  /** The state directory, with the ledger as the rest of the world sees it after every step. */
  class StateDirectory {
    var ledger: Ledger
    ghost var log: seq<Ledger>

    constructor ()
      ensures ledger == NO_LEDGER && log == [ledger]
    {
      ledger := NO_LEDGER;
      log := [NO_LEDGER];
    }

    /** write_state: an atomic replacement. */
    method Store(record: Record)
      modifies this
      ensures ledger == Apply(old(ledger), Write(record)) && log == old(log) + [ledger]
    {
      ledger := ledger.(record := Some(record),
          wins := if record.outcome == Succeeded then ledger.wins + [record.transaction] else ledger.wins);
      log := log + [ledger];
    }

    method SendImage(token: seq<byte>)
      modifies this
      ensures ledger == Apply(old(ledger), Upload(token)) && log == old(log) + [ledger]
    {
      ledger := ledger.(uploads := ledger.uploads + [token]);
      log := log + [ledger];
    }

    /** deploy: the ledger passes through exactly the states of its actions. */
    method DeployRelease(release: Release, env: Env) returns (success: bool)
      modifies this
      ensures ledger == ApplyAll(old(ledger), Actions(old(ledger.record), release, env))
      ensures log == old(log) + Trail(old(ledger), Actions(old(ledger.record), release, env))
    {
      hide Reconciled;
      var prior := ledger.record;
      success := false;
      if prior.Some? {
        if prior.value.outcome == Failed || prior.value.outcome == Unknown { return; }
        if prior.value.outcome == InProgress {
          if prior.value.sha256 != release.sha256 || prior.value.transaction.None? { return; }
          var acknowledged;
          success, acknowledged := ReconcileLoop(env.answers, release, prior.value.transaction.value);
          Store(prior.value.(outcome := if success then Succeeded else Failed));
          return;
        }
      }
      if env.preflight != Ready { return env.preflight == AlreadyCurrent; }
      ghost var first := ledger;
      var record := Record(InProgress, release.buildId, release.sha256, None);
      Store(record);
      if env.prepared.None? {
        Two(first, Write(record), Write(record.(outcome := Failed)));
        Store(record.(outcome := Failed));
        return;
      }
      var token := env.prepared.value;
      ghost var intent := record;
      record := record.(transaction := Some(token));
      if !env.recorded {
        Two(first, Write(intent), Write(record.(outcome := Failed)));
        Store(record.(outcome := Failed));
        return;
      }
      Store(record);
      SendImage(token);
      var acknowledged;
      success, acknowledged := ReconcileLoop(env.answers, release, token);
      var done := record.(outcome := if success then Succeeded else Failed);
      Four(first, Write(intent), Write(record), Upload(token), Write(done));
      Store(done);
    }
  }

  // ---- Many runs -----------------------------------------------------------------------------------------------

  /** The record lets a run upload. */
  predicate Clear(l: Ledger) {
    l.record.None? || l.record.value.outcome == Succeeded
  }

  /** An uploaded token is settled: SUCCESS was recorded for it. Otherwise it is the record's transaction. */
  predicate Known(l: Ledger, token: seq<byte>) {
    Some(token) in l.wins || (l.record.Some? && l.record.value.transaction == Some(token))
  }

  predicate Accounted(l: Ledger) {
    && |l.uploads| <= |l.wins| + (if Clear(l) then 0 else 1)
    && (forall i | 0 <= i < |l.uploads| :: Known(l, l.uploads[i]))
    && (l.record.Some? && l.record.value.outcome == Succeeded ==> l.record.value.transaction in l.wins)
  }

  /** A record that takes the place of another must not lose its transaction, unless that one succeeded. */
  lemma WriteKeeps(l: Ledger, record: Record)
    requires Accounted(l)
    requires l.record.None? || l.record.value.outcome == Succeeded || l.record.value.transaction == record.transaction
    requires record.outcome == Succeeded || !Clear(l) || |l.uploads| <= |l.wins|
    ensures Accounted(Apply(l, Write(record)))
  {
    var next := Apply(l, Write(record));
    forall i | 0 <= i < |next.uploads| ensures Known(next, next.uploads[i]) { assert Known(l, l.uploads[i]); }
  }

  /** The steps a run takes one by one; the record at the end of each is on disk before the next. */
  lemma RunKeeps(l: Ledger, release: Release, env: Env, at: nat)
    requires Accounted(l)
    ensures var actions := Actions(l.record, release, env); at <= |actions| ==> Accounted(ApplyAll(l, actions[..at]))
  {
    hide Reconciled, Accounted;
    var actions := Actions(l.record, release, env);
    if at <= |actions| {
      assert |actions| <= 4;
      if at == 1 {
        assert actions[..1] == [actions[0]] && [actions[0]][1..] == [];
        FirstKeeps(l, release, env);
      } else if at == 2 {
        assert actions[..2] == [actions[0], actions[1]];
        Two(l, actions[0], actions[1]);
        SecondKeeps(l, release, env);
      } else if at > 2 {
        LastKeep(l, release, env, at);
      }
    }
  }

  lemma FirstKeeps(l: Ledger, release: Release, env: Env)
    requires Accounted(l) && |Actions(l.record, release, env)| > 0
    ensures Accounted(Apply(l, Actions(l.record, release, env)[0]))
  {
    hide Reconciled, Known;
    WriteKeeps(l, Actions(l.record, release, env)[0].record);
  }

  lemma SecondKeeps(l: Ledger, release: Release, env: Env)
    requires Accounted(l) && |Actions(l.record, release, env)| > 1
    ensures var actions := Actions(l.record, release, env); Accounted(Apply(Apply(l, actions[0]), actions[1]))
  {
    hide Reconciled;
    var actions := Actions(l.record, release, env);
    FirstKeeps(l, release, env);
    var intent := Apply(l, actions[0]);
    var known := Apply(intent, actions[1]);
    forall i | 0 <= i < |known.uploads| ensures Known(known, known.uploads[i]) { assert Known(intent,
        intent.uploads[i]); }
  }

  /** The upload itself, and the verdict. */
  lemma LastKeep(l: Ledger, release: Release, env: Env, at: nat)
    requires Accounted(l) && 3 <= at <= |Actions(l.record, release, env)|
    ensures Accounted(ApplyAll(l, Actions(l.record, release, env)[..at]))
  {
    hide Reconciled;
    var actions := Actions(l.record, release, env);
    SecondKeeps(l, release, env);
    var known := Apply(Apply(l, actions[0]), actions[1]);
    var sent := Apply(known, actions[2]);
    forall i | 0 <= i < |sent.uploads| ensures Known(sent, sent.uploads[i]) {
      if i < |known.uploads| { assert Known(known, known.uploads[i]); }
    }
    if at == 4 {
      Four(l, actions[0], actions[1], actions[2], actions[3]);
      assert actions[..4] == [actions[0], actions[1], actions[2], actions[3]];
      WriteKeeps(sent, actions[3].record);
    } else {
      assert actions[..3][1..] == [actions[1], actions[2]];
      Two(Apply(l, actions[0]), actions[1], actions[2]);
    }
  }

  /** A deployment run, and how many of its lasting actions happened before it was killed. */
  datatype Attempt = Attempt(release: Release, env: Env, at: nat)

  function AfterAttempts(l: Ledger, attempts: seq<Attempt>): Ledger
    decreases |attempts|
  {
    if |attempts| == 0 then l
    else
      var before := AfterAttempts(l, attempts[..|attempts| - 1]);
      var last := attempts[|attempts| - 1];
      var actions := Actions(before.record, last.release, last.env);
      ApplyAll(before, if last.at < |actions| then actions[..last.at] else actions)
  }

  lemma {:induction false} AlwaysAccounted(attempts: seq<Attempt>)
    ensures Accounted(AfterAttempts(NO_LEDGER, attempts))
    decreases |attempts|
  {
    hide Actions, ApplyAll, Clear;
    if |attempts| == 0 {
      assert Accounted(NO_LEDGER) by { NothingYet(); }
    } else {
      AlwaysAccounted(attempts[..|attempts| - 1]);
      var before := AfterAttempts(NO_LEDGER, attempts[..|attempts| - 1]);
      var last := attempts[|attempts| - 1];
      var actions := Actions(before.record, last.release, last.env);
      RunKeeps(before, last.release, last.env, if last.at < |actions| then last.at else |actions|);
      assert actions[..|actions|] == actions;
    }
  }

  lemma NothingYet()
    ensures Accounted(NO_LEDGER)
  {
  }

  /** Over any sequence of runs, each killed anywhere or not at all: at most one upload more than recorded successes,
      and none more when the next run may upload again. */
  lemma UploadsAtMostOnce(attempts: seq<Attempt>)
    ensures var l := AfterAttempts(NO_LEDGER, attempts); |l.uploads| <= |l.wins| + (if Clear(l) then 0 else 1)
  {
    hide Clear, AfterAttempts;
    AlwaysAccounted(attempts);
  }

  /** And every token ever uploaded under had its success recorded, or is the one in the record, where the next run
      looks before anything else: no upload is forgotten. */
  lemma NoUploadForgotten(attempts: seq<Attempt>, i: nat)
    requires i < |AfterAttempts(NO_LEDGER, attempts).uploads|
    ensures var l := AfterAttempts(NO_LEDGER, attempts);
            Some(l.uploads[i]) in l.wins ||
            (l.record.Some? && l.record.value.outcome != Succeeded && l.record.value.transaction == Some(l.uploads[i]))
  {
    hide AfterAttempts;
    AlwaysAccounted(attempts);
    assert Known(AfterAttempts(NO_LEDGER, attempts), AfterAttempts(NO_LEDGER, attempts).uploads[i]);
  }

  /** A run that is not killed, under a clear record, and one that finds an unsettled upload of the same release: what
      they do to the device and what they record. */
  lemma DeploysExactly(l: Ledger, release: Release, env: Env)
    requires Clear(l) && env.preflight == Ready
    ensures var end := ApplyAll(l, Actions(l.record, release, env));
            && end.uploads == (if env.prepared.Some? &&
                env.recorded then l.uploads + [env.prepared.value] else l.uploads)
            && end.record.Some? && end.record.value.sha256 == release.sha256
            && (end.record.value.outcome == Succeeded <==>
                  env.prepared.Some? && env.recorded && Reconciled(env.answers, release, env.prepared.value))
            && (end.record.value.outcome != Succeeded ==> end.record.value.outcome == Failed)
  {
    hide Reconciled;
    var actions := Actions(l.record, release, env);
    if |actions| == 2 { Two(l, actions[0], actions[1]); } else { Four(l, actions[0], actions[1], actions[2],
        actions[3]); }
  }

  lemma SettlesExactly(l: Ledger, release: Release, env: Env)
    requires l.record.Some? && l.record.value.outcome == InProgress && l.record.value.sha256 == release.sha256
    requires l.record.value.transaction.Some?
    ensures var end := ApplyAll(l, Actions(l.record, release, env));
            && end.uploads == l.uploads && end.record.Some?
            && end.record.value == l.record.value.(outcome := end.record.value.outcome)
            && (end.record.value.outcome == Succeeded <==>
                  Reconciled(env.answers, release, l.record.value.transaction.value))
            && (end.record.value.outcome != Succeeded ==> end.record.value.outcome == Failed)
  {
    hide Reconciled;
    var actions := Actions(l.record, release, env);
    assert actions[1..] == [];
  }

  /** SUCCESS is only ever recorded for a transaction that the device reported VALID, with the build, version and key
      of the release. */
  lemma SuccessWasReported(prior: Option<Record>, release: Release, env: Env, i: nat)
    requires i < |Actions(prior, release, env)|
    requires Actions(prior, release, env)[i].Write? && Actions(prior, release, env)[i].record.outcome == Succeeded
    ensures var record := Actions(prior, release, env)[i].record;
            record.sha256 == release.sha256 && record.transaction.Some? &&
            Reported(env.answers, release, record.transaction.value)
  {
    hide Reconciled, Reported;
    var record := Actions(prior, release, env)[i].record;
    if record.transaction.Some? && Reconciled(env.answers, release, record.transaction.value) {
      ReconciledIsReported(env.answers, release, record.transaction.value);
    }
  }

  /** A run uploads only under a clear record, at most once, and after its intent is on disk. */
  lemma UploadAfterIntent(prior: Option<Record>, release: Release, env: Env, i: nat)
    requires i < |Actions(prior, release, env)| && Actions(prior, release, env)[i].Upload?
    ensures prior.None? || prior.value.outcome == Succeeded
    ensures i == 2 && var first := Actions(prior, release, env)[0]; first.Write? && first.record.outcome == InProgress
    ensures var second := Actions(prior, release, env)[1];
            second.Write? && second.record.outcome == InProgress &&
                second.record.transaction == Some(Actions(prior, release, env)[i].token)
  {
    hide Reconciled;
  }
}

/** The remote tool: one upload per fence file, whatever happens. */
module RemoteDeploy {
  import opened Bytes
  import opened Deploy

  datatype Phase = Reserved | MayHaveStarted | PhaseValid

  datatype Fence = Fence(phase: Phase, candidate: Release, transaction: Option<seq<byte>>)

  /** uploads counts since the fence file last did not exist. */
  datatype Host = Host(fence: Option<Fence>, uploads: nat)

  /** One answer, and whether the readiness check of the expected profile passes on it. */
  datatype Answer = Answer(report: Report, ready: bool)

  datatype Result = Confirmed | Mismatch | Unconfirmed

  /** reconcile: answers for the candidate's version decide. */
  function Reconciled(answers: seq<Option<Answer>>, candidate: Release, token: seq<byte>): Result {
    if |answers| == 0 then Unconfirmed
    else if answers[0].None? || answers[0].value.report.version != candidate.version then Reconciled(answers[1..],
        candidate, token)
    else if answers[0].value.report.transaction != token then Mismatch
    else if answers[0].value.report.boot != ReportsValid then Reconciled(answers[1..], candidate, token)
    else if answers[0].value.ready then Confirmed
    else Mismatch
  }

  datatype Env = Env(inputsOk: bool, readyBefore: bool, readyAgain: bool, prepared: Option<seq<byte>>,
      answers: seq<Option<Answer>>)

  datatype Command = DeployNow(candidate: Release, env: Env) | ReconcileNow(env: Env)

  datatype Action = Reserve(fence: Fence) | Rewrite(fence: Fence) | Upload(token: seq<byte>)

  function Actions(host: Host, command: Command): seq<Action> {
    match command
    case DeployNow(candidate, env) =>
      if !env.inputsOk || !env.readyBefore || host.fence.Some? then []
      else
        var fence := Fence(Reserved, candidate, None);
        if !env.readyAgain || env.prepared.None? then [Reserve(fence)]
        else
          var started := Fence(MayHaveStarted, candidate, env.prepared);
          if Reconciled(env.answers, candidate, env.prepared.value) == Confirmed
          then [Reserve(fence), Rewrite(started), Action.Upload(env.prepared.value),
              Rewrite(started.(phase := PhaseValid))]
          else [Reserve(fence), Rewrite(started), Action.Upload(env.prepared.value)]
    case ReconcileNow(env) =>
      if !env.inputsOk || host.fence.None? || host.fence.value.transaction.None? then []
      else if Reconciled(env.answers, host.fence.value.candidate, host.fence.value.transaction.value) == Confirmed
      then [Rewrite(host.fence.value.(phase := PhaseValid))]
      else []
  }

  function Apply(h: Host, a: Action): Host {
    match a
    case Reserve(fence) => h.(fence := Some(fence))
    case Rewrite(fence) => h.(fence := Some(fence))
    case Upload(_) => h.(uploads := h.uploads + 1)
  }

  function ApplyAll(h: Host, actions: seq<Action>): Host
    decreases |actions|
  {
    if |actions| == 0 then h else ApplyAll(Apply(h, actions[0]), actions[1..])
  }

  /** Without a fence nothing was uploaded; under it, at most once; and not before the record says it may have been. */
  predicate Fenced(h: Host) {
    && h.uploads <= 1
    && (h.uploads == 1 ==> h.fence.Some? && h.fence.value.phase != Reserved)
  }

  lemma {:induction false} CommandKeepsFence(h: Host, command: Command, at: nat)
    requires Fenced(h) && at <= |Actions(h, command)|
    ensures Fenced(ApplyAll(h, Actions(h, command)[..at]))
  {
    hide Reconciled;
    var actions := Actions(h, command)[..at];
    if at > 0 {
      var rest := actions[1..];
      assert ApplyAll(h, actions) == ApplyAll(Apply(h, actions[0]), rest);
      if at > 1 {
        assert ApplyAll(Apply(h, actions[0]), rest) == ApplyAll(Apply(Apply(h, actions[0]), rest[0]), rest[1..]);
        if at > 2 { TailKeepsFence(Apply(Apply(h, actions[0]), rest[0]), rest[1..]); }
      }
    }
  }

  /** The upload, and the confirmation after it. */
  lemma TailKeepsFence(h: Host, actions: seq<Action>)
    requires h.uploads == 0 && h.fence.Some? && h.fence.value.phase == MayHaveStarted
    requires 1 <= |actions| <= 2 && actions[0].Upload?
    requires |actions| == 2 ==> actions[1].Rewrite? && actions[1].fence.phase == PhaseValid
    ensures Fenced(ApplyAll(h, actions))
  {
    var uploaded := Apply(h, actions[0]);
    assert ApplyAll(h, actions) == ApplyAll(uploaded, actions[1..]);
    if |actions| == 2 {
      assert ApplyAll(uploaded, actions[1..]) == ApplyAll(Apply(uploaded, actions[1]), actions[1..][1..]);
    }
  }

  datatype Attempt = Attempt(command: Command, at: nat)

  function AfterAttempts(h: Host, attempts: seq<Attempt>): Host
    decreases |attempts|
  {
    if |attempts| == 0 then h
    else
      var before := AfterAttempts(h, attempts[..|attempts| - 1]);
      var last := attempts[|attempts| - 1];
      var actions := Actions(before, last.command);
      ApplyAll(before, if last.at < |actions| then actions[..last.at] else actions)
  }

  /** Over any commands, each killed anywhere: at most one upload for a fence that nobody removed. */
  lemma {:induction false} OneUploadPerFence(attempts: seq<Attempt>)
    ensures Fenced(AfterAttempts(Host(None, 0), attempts))
    decreases |attempts|
  {
    hide Actions, ApplyAll;
    if |attempts| > 0 {
      var before := AfterAttempts(Host(None, 0), attempts[..|attempts| - 1]);
      OneUploadPerFence(attempts[..|attempts| - 1]);
      var last := attempts[|attempts| - 1];
      var actions := Actions(before, last.command);
      CommandKeepsFence(before, last.command, if last.at < |actions| then last.at else |actions|);
      assert actions[..|actions|] == actions;
    }
  }

  predicate Reported(answers: seq<Option<Answer>>, candidate: Release, token: seq<byte>) {
    exists i :: 0 <= i < |answers| && answers[i].Some? && answers[i].value.ready &&
                answers[i].value.report.version == candidate.version && answers[i].value.report.transaction == token &&
                answers[i].value.report.boot == ReportsValid
  }

  lemma {:induction false} ConfirmedIsReported(answers: seq<Option<Answer>>, candidate: Release, token: seq<byte>)
    requires Reconciled(answers, candidate, token) == Confirmed
    ensures Reported(answers, candidate, token)
  {
    if answers[0].None? || answers[0].value.report.version != candidate.version ||
        answers[0].value.report.boot != ReportsValid {
      ConfirmedIsReported(answers[1..], candidate, token);
      var i :| 0 <= i < |answers[1..]| && answers[1..][i].Some? && answers[1..][i].value.ready &&
        answers[1..][i].value.report.version == candidate.version &&
            answers[1..][i].value.report.transaction == token &&
        answers[1..][i].value.report.boot == ReportsValid;
      assert answers[i + 1] == answers[1..][i];
    }
  }

  predicate ForVersion(answer: Option<Answer>, candidate: Release) {
    answer.Some? && answer.value.report.version == candidate.version
  }

  /** None of the first n answers decides: each is unreadable, about another version, or about this transaction and not
      valid yet. */
  predicate Undecided(answers: seq<Option<Answer>>, candidate: Release, token: seq<byte>, n: nat) {
    n <= |answers| &&
    forall i | 0 <= i < n && ForVersion(answers[i], candidate) ::
      answers[i].value.report.transaction == token && answers[i].value.report.boot != ReportsValid
  }

  predicate Confirms(answer: Option<Answer>, candidate: Release, token: seq<byte>) {
    ForVersion(answer, candidate) && answer.value.report.transaction == token &&
        answer.value.report.boot == ReportsValid &&
    answer.value.ready
  }

  /** The outcome is confirmed exactly if the first answer that decides reports the transaction valid and ready. */
  lemma {:induction false} ConfirmedExactly(answers: seq<Option<Answer>>, candidate: Release, token: seq<byte>)
    ensures Reconciled(answers, candidate, token) == Confirmed <==>
            exists i: nat :: i < |answers| && Confirms(answers[i], candidate, token) &&
                Undecided(answers, candidate, token, i)
    decreases |answers|
  {
    if |answers| > 0 {
      var rest, first := answers[1..], answers[0];
      ConfirmedExactly(rest, candidate, token);
      if Undecided([first], candidate, token, 1) {
        assert !ForVersion(first, candidate) ||
               (first.value.report.transaction == token && first.value.report.boot != ReportsValid) by {
          assert [first][0] == first;
        }
        forall i: nat | i < |rest|
          ensures Undecided(rest, candidate, token, i) <==> Undecided(answers, candidate, token, i + 1) {
          assert forall j | 0 <= j < i :: rest[j] == answers[j + 1];
          assert forall j | 0 < j < i + 1 :: answers[j] == rest[j - 1];
        }
        if i: nat :| i < |rest| && Confirms(rest[i], candidate, token) && Undecided(rest, candidate, token, i) {
          assert answers[i + 1] == rest[i] && Undecided(answers, candidate, token, i + 1);
        }
        forall i: nat | i < |answers| && Confirms(answers[i], candidate, token) &&
            Undecided(answers, candidate, token, i)
          ensures i > 0 && rest[i - 1] == answers[i] && Undecided(rest, candidate, token, i - 1) {}
      } else {
        assert ForVersion(first, candidate);
        if Confirms(first, candidate, token) { assert Undecided(answers, candidate, token, 0); }
        forall i: nat | i < |answers| && Undecided(answers, candidate, token, i) ensures i == 0 {}
      }
    }
  }

  /** A deployment that is not killed, with no fence in its way and the device ready: one upload, and VALID recorded
      exactly if it was confirmed. */
  lemma DeploysExactly(candidate: Release, env: Env)
    requires env.inputsOk && env.readyBefore && env.readyAgain && env.prepared.Some?
    ensures var end := ApplyAll(Host(None, 0), Actions(Host(None, 0), DeployNow(candidate, env)));
            end.uploads == 1 && end.fence.Some? && end.fence.value.transaction == env.prepared &&
            end.fence.value.candidate == candidate &&
            (end.fence.value.phase == PhaseValid <==>
               Reconciled(env.answers, candidate, env.prepared.value) == Confirmed)
  {
    hide Reconciled;
    var host := Host(None, 0);
    var actions := Actions(host, DeployNow(candidate, env));
    var reserved := Apply(host, actions[0]);
    var started := Apply(reserved, actions[1]);
    assert ApplyAll(host, actions) == ApplyAll(reserved, actions[1..]);
    assert ApplyAll(reserved, actions[1..]) == ApplyAll(started, actions[1..][1..]);
    assert actions[1..][1..] == actions[2..];
    assert ApplyAll(started, actions[2..]) == ApplyAll(Apply(started, actions[2]), actions[2..][1..]);
    var sent := Apply(started, actions[2]);
    assert actions[2..][1..] == actions[3..];
    if |actions| == 4 {
      assert ApplyAll(sent, actions[3..]) == ApplyAll(Apply(sent, actions[3]), actions[3..][1..]);
      assert actions[3..][1..] == [];
    } else {
      assert actions[3..] == [];
    }
  }

  /** VALID enters the fence only for the transaction the device reported valid, ready and at the candidate's
      version. */
  lemma ValidWasReported(h: Host, command: Command, i: nat)
    requires i < |Actions(h, command)| && Actions(h, command)[i].Rewrite? &&
        Actions(h, command)[i].fence.phase == PhaseValid
    ensures var fence := Actions(h, command)[i].fence;
            fence.transaction.Some? && Reported(command.env.answers, fence.candidate, fence.transaction.value)
  {
    hide Reconciled, Reported;
    var fence := Actions(h, command)[i].fence;
    if fence.transaction.Some? &&
        Reconciled(command.env.answers, fence.candidate, fence.transaction.value) == Confirmed {
      ConfirmedIsReported(command.env.answers, fence.candidate, fence.transaction.value);
    }
  }
}
