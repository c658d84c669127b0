/** What every run of the configuration store keeps, across faults, power cuts and reboots. */
module ConfigRuns {
  import opened Bytes
  import opened Wifi
  import opened Hardware
  import opened ConfigStore

  function A(nvs: Blobs): Option<WifiConfig> {
    Decoded(StoredAt(nvs, CfgA, RECORD_BYTES))
  }

  function B(nvs: Blobs): Option<WifiConfig> {
    Decoded(StoredAt(nvs, CfgB, RECORD_BYTES))
  }

  /** A valid reference to the newest record. */
  predicate NewestReference(nvs: Blobs, key: Key) {
    key in nvs ==> ValidReference(nvs[key], A(nvs), B(nvs)) && nvs[key][0] == Other(Newest(A(nvs), B(nvs)).1)
  }

  /** Durable states outside a reset: records decode and have different revisions, references name the newest
      record, and a trial reference beside an active one is the same. */
  predicate Clean(nvs: Blobs) {
    && ResetMark !in nvs
    && (CfgA in nvs ==> A(nvs).Some?)
    && (CfgB in nvs ==> B(nvs).Some?)
    && (A(nvs).Some? && B(nvs).Some? ==> A(nvs).value.revision != B(nvs).value.revision)
    && NewestReference(nvs, ActiveRef) && NewestReference(nvs, TrialRef)
    && (ActiveRef in nvs && TrialRef in nvs ==> nvs[TrialRef] == nvs[ActiveRef])
  }

  lemma CleanLoads(nvs: Blobs, selected: seq<byte>)
    requires Clean(nvs)
    ensures var m := Load(nvs, selected);
            m.state == (if ActiveRef in nvs then Active else if TrialRef in nvs then Trial else Empty) &&
            (m.revision, m.nextSlot) == Newest(A(nvs), B(nvs)) &&
            (m.state == Active ==> m.selected == nvs[ActiveRef]) &&
            (m.state == Trial ==> m.selected == nvs[TrialRef]) &&
            m.config == (if m.state == Empty then BLANK else Chosen(m.selected, A(nvs), B(nvs)))
  {
    hide DecodeConfig, Reference;
    assert CfgA in nvs ==> StoredAt(nvs, CfgA, RECORD_BYTES).Blob?;
    assert CfgB in nvs ==> StoredAt(nvs, CfgB, RECORD_BYTES).Blob?;
    assert ActiveRef in nvs ==> StoredAt(nvs, ActiveRef, REFERENCE_BYTES) == Blob(nvs[ActiveRef]);
    assert TrialRef in nvs ==> StoredAt(nvs, TrialRef, REFERENCE_BYTES) == Blob(nvs[TrialRef]);
  }

  /** What memory and a fresh load must have in common. */
  predicate SameView(m: Mem, l: Mem) {
    && m.state == l.state && m.config == l.config && m.revision == l.revision
    && (m.state == Empty ==> m.nextSlot == l.nextSlot)
    && (m.state == Trial || m.state == Active ==> m.selected == l.selected)
  }

  /** Memory is what recovery would find. */
  predicate Agrees(nvs: Blobs, m: Mem) {
    m.state != Corrupt && Clean(nvs) && SameView(m, Load(nvs, m.selected))
  }

  /** The record stage writes becomes the newest one and the other slot is untouched. */
  lemma RecordStored(nvs: Blobs, m: Mem, candidate: WifiConfig)
    requires Agrees(nvs, m) && MayStage(m, candidate)
    ensures var cut := WithRecord(nvs, m, candidate); var next := Next(m, candidate);
            Clean(cut) && Newest(A(cut), B(cut)) == (m.revision + 1, Other(m.nextSlot)) &&
            (if m.nextSlot == 0 then A(cut) == Some(next) && B(cut) == B(nvs)
             else B(cut) == Some(next) && A(cut) == A(nvs))
  {
    hide DecodeConfig, EncodeConfig, Reference, ValidWifi;
    CleanLoads(nvs, m.selected);
    DecodeOfEncode(Next(m, candidate)) by { assert ValidWifi(Next(m, candidate)) by { SameStrings(m, candidate); } }
  }

  lemma SameStrings(m: Mem, candidate: WifiConfig)
    requires MayStage(m, candidate)
    ensures ValidWifi(Next(m, candidate))
  {
  }

  lemma ReferenceStored(nvs: Blobs, m: Mem, candidate: WifiConfig)
    requires Agrees(nvs, m) && MayStage(m, candidate)
    ensures var cut := WithTrial(nvs, m, candidate); var next := Next(m, candidate);
            Clean(cut) && SameView(Mem(Trial, next, m.revision + 1, Reference(m.nextSlot, next), m.nextSlot),
                Load(cut, m.selected))
  {
    hide DecodeConfig, EncodeConfig, Reference, ValidWifi;
    CleanLoads(nvs, m.selected);
    RecordStored(nvs, m, candidate);
    var record, cut := WithRecord(nvs, m, candidate), WithTrial(nvs, m, candidate);
    assert A(cut) == A(record) && B(cut) == B(record);
    CleanLoads(cut, m.selected);
  }

  /** A power cut during stage leaves the old state, the same with the revision spent, or the new trial. */
  lemma StageIsAtomic(nvs: Blobs, m: Mem, candidate: WifiConfig, cut: Blobs)
    requires Agrees(nvs, m) && StageCut(nvs, m, candidate, cut)
    ensures Clean(cut)
    ensures var l := Load(cut, m.selected);
            SameView(m, l) ||
            (MayStage(m, candidate) && l.state == Empty && l.config == BLANK && l.revision == m.revision + 1) ||
            (MayStage(m, candidate) && l.state == Trial && l.config == Next(m, candidate) &&
                l.revision == m.revision + 1)
  {
    hide DecodeConfig, EncodeConfig, Reference, ValidWifi;
    if MayStage(m, candidate) {
      RecordStored(nvs, m, candidate);
      ReferenceStored(nvs, m, candidate);
      CleanLoads(nvs, m.selected);
      CleanLoads(WithRecord(nvs, m, candidate), m.selected);
    }
  }

  lemma ActiveStored(nvs: Blobs, m: Mem, cut: Blobs)
    requires Agrees(nvs, m) && m.state == Trial
    requires cut == nvs[ActiveRef := m.selected] || cut == nvs[ActiveRef := m.selected] - {TrialRef}
    ensures Clean(cut) && SameView(m.(state := Active), Load(cut, m.selected))
  {
    hide DecodeConfig, Reference;
    CleanLoads(nvs, m.selected);
    assert A(cut) == A(nvs) && B(cut) == B(nvs);
    CleanLoads(cut, m.selected);
  }

  lemma PromoteIsAtomic(nvs: Blobs, m: Mem, cut: Blobs)
    requires Agrees(nvs, m) && PromoteCut(nvs, m, cut)
    ensures Clean(cut)
    ensures var l := Load(cut, m.selected);
            SameView(m, l) || (m.state == Trial && SameView(m.(state := Active), l))
  {
    hide DecodeConfig, Reference;
    if cut != nvs { ActiveStored(nvs, m, cut); }
  }

  lemma TrialErased(nvs: Blobs, m: Mem)
    requires Agrees(nvs, m) && m.state == Trial
    ensures |m.selected| == REFERENCE_BYTES && m.selected[0] <= 1
    ensures Clean(nvs - {TrialRef})
    ensures SameView(m.(state := Empty, config := BLANK, nextSlot := Other(m.selected[0])), Load(nvs - {TrialRef},
        m.selected))
  {
    hide DecodeConfig, Reference;
    var cut := nvs - {TrialRef};
    CleanLoads(nvs, m.selected);
    assert A(cut) == A(nvs) && B(cut) == B(nvs);
    CleanLoads(cut, m.selected);
  }

  lemma DiscardIsAtomic(nvs: Blobs, m: Mem, cut: Blobs)
    requires Agrees(nvs, m) && DiscardCut(nvs, m, cut)
    ensures Clean(cut)
    ensures var l := Load(cut, m.selected);
            SameView(m, l) || (m.state == Trial && l.state == Empty && l.config == BLANK && l.revision == m.revision)
  {
    hide DecodeConfig, Reference;
    if cut != nvs { TrialErased(nvs, m); }
  }

  /** Everything the configuration store reads. */
  predicate SameConfig(a: Blobs, b: Blobs) {
    forall key | key in [CfgA, CfgB, ActiveRef, TrialRef, ResetMark] ::
      (key in a <==> key in b) && (key in a ==> a[key] == b[key])
  }

  /** Other records do not matter to it. */
  lemma ConfigDecides(a: Blobs, b: Blobs, m: Mem)
    requires SameConfig(a, b)
    ensures Clean(a) == Clean(b) && ResetPending(a) == ResetPending(b) && Load(a, m.selected) == Load(b, m.selected)
    ensures Agrees(a, m) == Agrees(b, m)
  {
    hide DecodeConfig, Reference, LoadFrom, ValidReference;
    assert CfgA in [CfgA, CfgB, ActiveRef, TrialRef, ResetMark] &&
           ActiveRef in [CfgA, CfgB, ActiveRef, TrialRef, ResetMark];
    SameReads(a, b, CfgA, RECORD_BYTES);
    SameReads(a, b, CfgB, RECORD_BYTES);
    SameReads(a, b, ActiveRef, REFERENCE_BYTES);
    SameReads(a, b, TrialRef, REFERENCE_BYTES);
    assert ResetMark in [CfgA, CfgB, ActiveRef, TrialRef, ResetMark];
    assert ResetMark in a <==> ResetMark in b;
  }

  lemma SameReads(a: Blobs, b: Blobs, key: Key, capacity: nat)
    requires SameConfig(a, b) && key in [CfgA, CfgB, ActiveRef, TrialRef, ResetMark]
    ensures StoredAt(a, key, capacity) == StoredAt(b, key, capacity)
    ensures (key in a <==> key in b) && (key in a ==> a[key] == b[key])
  {
  }

  // ---- Memory agrees with recovery ----------------------------------------------------------------

  lemma StageAgrees(nvs: Blobs, m: Mem, candidate: WifiConfig, nvs': Blobs, m': Mem)
    requires Agrees(nvs, m) && Staged(nvs, m, candidate, true, nvs', m')
    ensures Agrees(nvs', m')
  {
    hide DecodeConfig, EncodeConfig, Reference, ValidWifi;
    ReferenceStored(nvs, m, candidate);
    CleanLoads(nvs', m.selected);
    CleanLoads(nvs', m'.selected);
  }

  /** Stage never overwrites the newest record: it writes the other slot. */
  lemma StageKeepsNewest(nvs: Blobs, m: Mem, candidate: WifiConfig, cut: Blobs)
    requires Agrees(nvs, m) && StageCut(nvs, m, candidate, cut)
    requires MayStage(m, candidate) && (CfgA in nvs || CfgB in nvs)
    ensures var newest := SlotKey(Other(m.nextSlot));
            newest in nvs && newest in cut && cut[newest] == nvs[newest] &&
            (var c := DecodeConfig(nvs[newest]); c.Some? && c.value.revision == m.revision)
  {
    hide DecodeConfig, EncodeConfig, Reference, ValidWifi;
    CleanLoads(nvs, m.selected);
  }

  /** In any durable state that loads as a trial, discarding leaves memory equal to a fresh load exactly when the
      kept slot is undamaged and loses load's comparison, in which B wins a tie: a record kept in A has at most the
      discarded revision, one kept in B a lower one. */
  lemma DiscardAgreesExactly(nvs: Blobs, selected: seq<byte>, nvs': Blobs, m': Mem)
    requires var m := Load(nvs, selected);
             m.state == Trial && Discarded(nvs, m, true, nvs', m')
    ensures var m := Load(nvs, selected);
            var slot := m.selected[0];
            var rest := StoredAt(nvs, SlotKey(Other(slot)), RECORD_BYTES);
            SameView(m', Load(nvs', m'.selected)) <==>
            !Damaged(rest) &&
            (Decoded(rest).Some? ==>
               if slot == 1 then Decoded(rest).value.revision <= m.config.revision
               else Decoded(rest).value.revision < m.config.revision)
  {
    hide DecodeConfig, Reference;
    var m := Load(nvs, selected);
    assert nvs' == nvs - {TrialRef};
    assert StoredAt(nvs', CfgA, RECORD_BYTES) == StoredAt(nvs, CfgA, RECORD_BYTES);
    assert StoredAt(nvs', CfgB, RECORD_BYTES) == StoredAt(nvs, CfgB, RECORD_BYTES);
    assert StoredAt(nvs', ActiveRef, REFERENCE_BYTES) == StoredAt(nvs, ActiveRef, REFERENCE_BYTES) == Missing;
    assert StoredAt(nvs', TrialRef, REFERENCE_BYTES) == Missing;
  }

  // ---- Reset ---------------------------------------------------------------------------------------

  lemma {:induction false} WipedKeys(nvs: Blobs, k: nat)
    requires k <= |WIPED|
    ensures forall key :: key in Wiped(nvs, k) <==> key in nvs && key !in WIPED[..k]
    ensures forall key | key in Wiped(nvs, k) :: Wiped(nvs, k)[key] == nvs[key]
  {
    if k > 0 {
      WipedKeys(nvs, k - 1);
      assert WIPED[..k] == WIPED[..k - 1] + [WIPED[k - 1]];
    }
  }

  function Unrelated(nvs: Blobs): Blobs {
    map key | key in nvs && key !in WIPED :: nvs[key]
  }

  lemma WipedIsUnrelated(nvs: Blobs)
    ensures Wiped(nvs, |WIPED|) == Unrelated(nvs)
  {
    WipedKeys(nvs, |WIPED|);
    assert WIPED[..|WIPED|] == WIPED;
  }

  lemma WipedLoadsEmpty(nvs: Blobs, selected: seq<byte>)
    ensures Clean(Wiped(nvs, |WIPED|)) && Load(Wiped(nvs, |WIPED|), selected) == Mem(Empty, BLANK, 0, selected, 0)
  {
    WipedIsUnrelated(nvs);
    assert CfgA in WIPED && CfgB in WIPED && ActiveRef in WIPED && TrialRef in WIPED && ResetMark in WIPED;
  }

  /** An interrupted resumption keeps the marker until everything else is gone. */
  lemma ResumeCutKeepsMarker(nvs: Blobs, cut: Blobs)
    requires ResetPending(nvs) && ResumeCut(nvs, cut)
    ensures Unrelated(cut) == Unrelated(nvs)
    ensures ResetPending(cut) || cut == Unrelated(nvs)
  {
    if cut != nvs {
      var k :| 0 <= k <= |WIPED| && cut == Wiped(nvs, k);
      WipedKeys(nvs, k);
      if k == |WIPED| {
        WipedIsUnrelated(nvs);
      } else {
        assert ResetMark !in WIPED[..k];
      }
    }
  }

  /** From a durable reset marker, however often boots are interrupted, no boot gets past the reset with
      anything but an empty configuration at revision 0, unrelated keys never change, and a boot that does get
      past it has erased exactly the six keys. */
  lemma {:induction false} ResetSurvivesCrashes(cuts: seq<Blobs>, nvs': Blobs, m: Mem)
    requires |cuts| > 0 && ResetPending(cuts[0])
    requires forall i | 0 <= i < |cuts| - 1 :: ResumeCut(cuts[i], cuts[i + 1])
    requires Booted(cuts[|cuts| - 1], nvs', m)
    ensures forall i | 0 <= i < |cuts| :: Unrelated(cuts[i]) == Unrelated(cuts[0])
    ensures Unrelated(nvs') == Unrelated(cuts[0])
    ensures m.state != Corrupt ==>
              nvs' == Unrelated(cuts[0]) && m.state == Empty && m.config == BLANK && m.revision == 0
    decreases |cuts|
  {
    var n := cuts[0];
    if |cuts| == 1 {
      WipedIsUnrelated(n);
      WipedLoadsEmpty(n, NO_REFERENCE);
      if m.state == Corrupt { ResumeCutKeepsMarker(n, nvs'); }
    } else {
      ResumeCutKeepsMarker(n, cuts[1]);
      if ResetPending(cuts[1]) {
        ResetSurvivesCrashes(cuts[1..], nvs', m);
      } else {
        FinishedStaysFinished(cuts[1..], nvs', m, n);
      }
    }
  }

  lemma {:induction false} FinishedStaysFinished(cuts: seq<Blobs>, nvs': Blobs, m: Mem, n: Blobs)
    requires |cuts| > 0 && cuts[0] == Unrelated(n)
    requires forall i | 0 <= i < |cuts| - 1 :: ResumeCut(cuts[i], cuts[i + 1])
    requires Booted(cuts[|cuts| - 1], nvs', m)
    ensures forall i | 0 <= i < |cuts| :: cuts[i] == Unrelated(n)
    ensures nvs' == Unrelated(n)
    ensures m.state != Corrupt ==> m.state == Empty && m.config == BLANK && m.revision == 0
    decreases |cuts|
  {
    assert ResetMark in WIPED;
    assert ResetMark !in cuts[0];
    if |cuts| == 1 {
      WipedIsUnrelated(n);
      WipedLoadsEmpty(n, NO_REFERENCE);
    } else {
      FinishedStaysFinished(cuts[1..], nvs', m, n);
    }
  }

  // ---- Runs ----------------------------------------------------------------------------------------

  datatype Sys = Sys(nvs: Blobs, mem: Mem)

  datatype Op = Stage(candidate: WifiConfig) | Promote | Discard | Reset

  /** An operation that returns, or a power cut during one followed by a boot. */
  datatype Step = Returns(op: Op, ok: bool) | PowerCut(op: Op, cut: Blobs)

  predicate Cut(s: Sys, op: Op, cut: Blobs) {
    match op
    case Stage(candidate) => StageCut(s.nvs, s.mem, candidate, cut)
    case Promote => PromoteCut(s.nvs, s.mem, cut)
    case Discard => DiscardCut(s.nvs, s.mem, cut)
    case Reset => ResetCut(s.nvs, cut)
  }

  predicate Returned(s: Sys, op: Op, ok: bool, s': Sys) {
    match op
    case Stage(candidate) => Staged(s.nvs, s.mem, candidate, ok, s'.nvs, s'.mem)
    case Promote => Promoted(s.nvs, s.mem, ok, s'.nvs, s'.mem)
    case Discard => Discarded(s.nvs, s.mem, ok, s'.nvs, s'.mem)
    case Reset => WasReset(s.nvs, s.mem, ok, s'.nvs, s'.mem)
  }

  predicate Follows(s: Sys, step: Step, s': Sys) {
    match step
    case Returns(op, ok) => Returned(s, op, ok, s')
    case PowerCut(op, cut) => Cut(s, op, cut) && Booted(cut, s'.nvs, s'.mem)
  }

  /** The durable state is clean or being reset, and a memory that is not corrupt is what recovery would find. */
  predicate Inv(s: Sys) {
    && (Clean(s.nvs) || ResetPending(s.nvs))
    && (s.mem.state != Corrupt ==> Agrees(s.nvs, s.mem))
  }

  lemma CutsStayRecoverable(s: Sys, op: Op, cut: Blobs)
    requires Inv(s) && Cut(s, op, cut)
    ensures Clean(cut) || ResetPending(cut)
    ensures op != Reset && Clean(s.nvs) ==> Clean(cut)
  {
    hide DecodeConfig, EncodeConfig, Reference, ValidWifi, Clean, Load;
    match op
    case Stage(candidate) => if s.mem.state != Corrupt { StageIsAtomic(s.nvs, s.mem, candidate, cut); }
    case Promote => if s.mem.state != Corrupt { PromoteIsAtomic(s.nvs, s.mem, cut); }
    case Discard => if s.mem.state != Corrupt { DiscardIsAtomic(s.nvs, s.mem, cut); }
    case Reset =>
      if cut != s.nvs {
        ResumeCutKeepsMarker(s.nvs[ResetMark := MARKER], cut);
        WipedIsUnrelated(s.nvs[ResetMark := MARKER]);
        WipedLoadsEmpty(s.nvs[ResetMark := MARKER], NO_REFERENCE);
      }
  }

  lemma BootKeepsInv(nvs: Blobs, nvs': Blobs, m: Mem)
    requires (Clean(nvs) || ResetPending(nvs)) && Booted(nvs, nvs', m)
    ensures Inv(Sys(nvs', m))
    ensures m.state == Corrupt || m.state == Load(nvs', NO_REFERENCE).state
    ensures Clean(nvs) ==> nvs' == nvs
  {
    hide DecodeConfig, Reference;
    if ResetPending(nvs) {
      WipedLoadsEmpty(nvs, NO_REFERENCE);
      WipedIsUnrelated(nvs);
      if ResumeCut(nvs, nvs') { ResumeCutKeepsMarker(nvs, nvs'); }
      CleanLoads(Wiped(nvs, |WIPED|), m.selected);
    } else {
      CleanLoads(nvs, NO_REFERENCE);
      CleanLoads(nvs, m.selected);
    }
  }

  lemma ReturnKeepsInv(s: Sys, op: Op, ok: bool, s': Sys)
    requires Inv(s) && Returned(s, op, ok, s')
    ensures Inv(s')
  {
    hide DecodeConfig, EncodeConfig, Reference, ValidWifi, Clean, Load;
    if !ok {
      CutsStayRecoverable(s, op, s'.nvs);
    } else {
      match op
      case Stage(candidate) => StageAgrees(s.nvs, s.mem, candidate, s'.nvs, s'.mem);
      case Promote =>
        ActiveStored(s.nvs, s.mem, s'.nvs);
      case Discard =>
        TrialErased(s.nvs, s.mem);
      case Reset =>
        WipedLoadsEmpty(s.nvs[ResetMark := MARKER], s'.mem.selected);
    }
  }

  lemma StepKeepsInv(s: Sys, step: Step, s': Sys)
    requires Inv(s) && Follows(s, step, s')
    ensures Inv(s')
  {
    hide DecodeConfig, EncodeConfig, Reference, ValidWifi, Clean, Load;
    match step
    case Returns(op, ok) => ReturnKeepsInv(s, op, ok, s');
    case PowerCut(op, cut) =>
      CutsStayRecoverable(s, op, cut);
      BootKeepsInv(cut, s'.nvs, s'.mem);
  }

  predicate Run(states: seq<Sys>, steps: seq<Step>) {
    |states| == |steps| + 1 && forall i | 0 <= i < |steps| :: Follows(states[i], steps[i], states[i + 1])
  }

  /** In every run from a clean device, every state has the invariant: the next load is never corrupt unless a
      read fails, and memory agrees with it. */
  lemma {:induction false} RunsStayRecoverable(states: seq<Sys>, steps: seq<Step>, k: nat)
    requires Run(states, steps) && Inv(states[0]) && k < |states|
    ensures Inv(states[k])
    ensures Clean(states[k].nvs) ==> Load(states[k].nvs, NO_REFERENCE).state != Corrupt
    ensures ResetPending(states[k].nvs) ==> states[k].mem.state == Corrupt
  {
    hide Clean, Load, Follows;
    if k > 0 {
      RunsStayRecoverable(states, steps, k - 1);
      StepKeepsInv(states[k - 1], steps[k - 1], states[k]);
    }
    CleanExcludesReset(states[k].nvs);
    if Clean(states[k].nvs) { CleanLoads(states[k].nvs, NO_REFERENCE); }
  }

  lemma CleanExcludesReset(nvs: Blobs)
    ensures !(Clean(nvs) && ResetPending(nvs))
  {
  }

  /** The active reference and the record it names. */
  predicate KeepsActive(before: Blobs, after: Blobs)
    requires Clean(before) && ActiveRef in before
  {
    var slot := SlotKey(before[ActiveRef][0]);
    ActiveRef in after && after[ActiveRef] == before[ActiveRef] &&
    slot in before && slot in after && after[slot] == before[slot]
  }

  lemma StepKeepsActive(s: Sys, step: Step, s': Sys)
    requires Inv(s) && Clean(s.nvs) && Follows(s, step, s') && ActiveRef in s.nvs && step.op != Reset
    ensures Clean(s'.nvs) && ActiveRef in s'.nvs && KeepsActive(s.nvs, s'.nvs)
  {
    hide DecodeConfig, EncodeConfig, Reference, ValidWifi, WithRecord, WithTrial;
    CleanLoads(s.nvs, s.mem.selected);
    assert s.mem.state == Corrupt || s.mem.state == Active;
    assert s'.nvs == s.nvs || step.PowerCut?;
    if step.PowerCut? { BootKeepsInv(s.nvs, s'.nvs, s'.mem); }
    assert s'.nvs == s.nvs;
  }

  /** Durable active credentials are never overwritten by anything but a reset. */
  lemma {:induction false} ActiveIsNeverOverwritten(states: seq<Sys>, steps: seq<Step>, k: nat)
    requires Run(states, steps) && Inv(states[0]) && Clean(states[0].nvs) && ActiveRef in states[0].nvs && k < |states|
    requires forall i | 0 <= i < k :: steps[i].op != Reset
    ensures Clean(states[k].nvs) && KeepsActive(states[0].nvs, states[k].nvs)
  {
    hide Clean, Load, Follows, KeepsActive;
    if k == 0 {
      SlotOfActive(states[0].nvs);
    } else {
      ActiveIsNeverOverwritten(states, steps, k - 1);
      RunsStayRecoverable(states, steps, k - 1);
      KeptReference(states[0].nvs, states[k - 1].nvs);
      StepKeepsActive(states[k - 1], steps[k - 1], states[k]);
      KeepsTransitive(states[0].nvs, states[k - 1].nvs, states[k].nvs);
    }
  }

  lemma SlotOfActive(nvs: Blobs)
    requires Clean(nvs) && ActiveRef in nvs
    ensures KeepsActive(nvs, nvs)
  {
    hide DecodeConfig, Reference;
  }

  lemma KeptReference(a: Blobs, b: Blobs)
    requires Clean(a) && ActiveRef in a && KeepsActive(a, b)
    ensures ActiveRef in b
  {
  }

  lemma KeepsTransitive(a: Blobs, b: Blobs, c: Blobs)
    requires Clean(a) && ActiveRef in a && Clean(b) && ActiveRef in b && KeepsActive(a, b) && KeepsActive(b, c)
    ensures KeepsActive(a, c)
  {
  }
}
