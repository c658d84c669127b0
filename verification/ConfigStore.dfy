/** The two-slot configuration store: what load reads, what each operation writes, and the class that does it. */
module ConfigStore {
  import opened Bytes
  import opened Wifi
  import opened Hardware

  datatype State = Empty | Trial | Active | Corrupt

  /** The store's memory. */
  datatype Mem = Mem(state: State, config: WifiConfig, revision: u32, selected: seq<byte>, nextSlot: byte)

  const NO_REFERENCE: seq<byte> := Zeros(REFERENCE_BYTES)
  const FRESH := Mem(Corrupt, BLANK, 0, NO_REFERENCE, 0)

  const MARKER: seq<byte> := [0x57, 0x52, 0x53, 0x54, 1, 0x6d, 0xa3, 0x52] // "WRST" 1 6d a3 52

  function SlotKey(slot: byte): Key {
    if slot == 0 then CfgA else CfgB
  }

  function Decoded(r: ReadResult): Option<WifiConfig> {
    if r.Blob? then DecodeConfig(r.bytes) else None
  }

  /** A stored record that does not decode. */
  predicate Damaged(r: ReadResult) {
    r != Missing && Decoded(r).None?
  }

  predicate ValidReference(r: seq<byte>, a: Option<WifiConfig>, b: Option<WifiConfig>) {
    && |r| == REFERENCE_BYTES && r[0] <= 1
    && var c := if r[0] == 0 then a else b;
       c.Some? && r == Reference(r[0], c.value)
  }

  function Chosen(r: seq<byte>, a: Option<WifiConfig>, b: Option<WifiConfig>): WifiConfig
    requires ValidReference(r, a, b)
  {
    if r[0] == 0 then a.value else b.value
  }

  /** Highest revision of the decodable slots, and the slot that does not hold it. */
  function Newest(a: Option<WifiConfig>, b: Option<WifiConfig>): (u32, byte) {
    if b.Some? && (a.None? || b.value.revision >= a.value.revision) then (b.value.revision, 0)
    else if a.Some? then (a.value.revision, 1)
    else (0, 0)
  }

  /** load(), given what the four reads returned. */
  function LoadFrom(ra: ReadResult, rb: ReadResult, active: ReadResult, trial: ReadResult, selected: seq<byte>): Mem {
    var a, b := Decoded(ra), Decoded(rb);
    var (revision, next) := Newest(a, b);
    var failed := Mem(Corrupt, BLANK, revision, selected, next);
    if ra.ReadError? then Mem(Corrupt, BLANK, 0, selected, 0)
    else if rb.ReadError? then Mem(Corrupt, BLANK, Newest(a, None).0, selected, Newest(a, None).1)
    else if active.ReadError? || trial.ReadError? then failed
    else if active.Blob? then
      if !ValidReference(active.bytes, a, b) || (trial.Blob? && trial.bytes != active.bytes) then failed
      else Mem(Active, Chosen(active.bytes, a, b), revision, active.bytes, next)
    else if trial.Blob? then
      if !ValidReference(trial.bytes, a, b) then failed
      else Mem(Trial, Chosen(trial.bytes, a, b), revision, trial.bytes, next)
    else if Damaged(ra) || Damaged(rb) then failed
    else Mem(Empty, BLANK, revision, selected, next)
  }

  /** load() when no read fails. */
  function Load(nvs: Blobs, selected: seq<byte>): Mem {
    LoadFrom(StoredAt(nvs, CfgA, RECORD_BYTES), StoredAt(nvs, CfgB, RECORD_BYTES),
             StoredAt(nvs, ActiveRef, REFERENCE_BYTES), StoredAt(nvs, TrialRef, REFERENCE_BYTES), selected)
  }

  /** What load's four reads returned; each is what is stored, or an error. */
  datatype Reads = Reads(a: ReadResult, b: ReadResult, active: ReadResult, trial: ReadResult) {
    predicate Of(nvs: Blobs) {
      && (a == StoredAt(nvs, CfgA, RECORD_BYTES) || a == ReadError)
      && (b == StoredAt(nvs, CfgB, RECORD_BYTES) || b == ReadError)
      && (active == StoredAt(nvs, ActiveRef, REFERENCE_BYTES) || active == ReadError)
      && (trial == StoredAt(nvs, TrialRef, REFERENCE_BYTES) || trial == ReadError)
    }

    predicate Faultless() {
      !a.ReadError? && !b.ReadError? && !active.ReadError? && !trial.ReadError?
    }
  }

  /** A load whose reads all work is the specified one; any read error leaves the store corrupt. */
  lemma LoadsUnlessReadsFail(nvs: Blobs, got: Reads, selected: seq<byte>)
    requires got.Of(nvs)
    ensures got.Faultless() ==> LoadFrom(got.a, got.b, got.active, got.trial, selected) == Load(nvs, selected)
    ensures !got.Faultless() ==> LoadFrom(got.a, got.b, got.active, got.trial, selected).state == Corrupt
  {
    hide DecodeConfig, Reference, ValidReference;
  }

  predicate MayStage(m: Mem, candidate: WifiConfig) {
    m.state == Empty && candidate.revision == m.revision && m.revision != U32_MAX && ValidWifi(candidate)
  }

  function Next(m: Mem, candidate: WifiConfig): WifiConfig
    requires MayStage(m, candidate)
  {
    candidate.(revision := candidate.revision + 1)
  }

  function WithRecord(nvs: Blobs, m: Mem, candidate: WifiConfig): Blobs
    requires MayStage(m, candidate)
  {
    nvs[SlotKey(m.nextSlot) := EncodeConfig(Next(m, candidate))]
  }

  function WithTrial(nvs: Blobs, m: Mem, candidate: WifiConfig): Blobs
    requires MayStage(m, candidate)
  {
    WithRecord(nvs, m, candidate)[TrialRef := Reference(m.nextSlot, Next(m, candidate))]
  }

  /** The durable states a power cut during stage can leave. */
  predicate StageCut(nvs: Blobs, m: Mem, candidate: WifiConfig, cut: Blobs) {
    cut == nvs || (MayStage(m, candidate) && (cut == WithRecord(nvs, m, candidate) ||
        cut == WithTrial(nvs, m, candidate)))
  }

  predicate Staged(nvs: Blobs, m: Mem, candidate: WifiConfig, ok: bool, nvs': Blobs, m': Mem) {
    if !MayStage(m, candidate) then !ok && nvs' == nvs && m' == m
    else
      var reference := Reference(m.nextSlot, Next(m, candidate));
      if ok then nvs' == WithTrial(nvs, m, candidate) &&
                 m' == Mem(Trial, Next(m, candidate), m.revision + 1, reference, m.nextSlot)
      else StageCut(nvs, m, candidate, nvs') && m' == m.(state := Corrupt, selected := reference)
  }

  predicate PromoteCut(nvs: Blobs, m: Mem, cut: Blobs) {
    cut == nvs || (m.state == Trial && (cut == nvs[ActiveRef := m.selected] ||
        cut == nvs[ActiveRef := m.selected] - {TrialRef}))
  }

  predicate Promoted(nvs: Blobs, m: Mem, ok: bool, nvs': Blobs, m': Mem) {
    if ok then m.state == Trial && m' == m.(state := Active) &&
               (nvs' == nvs[ActiveRef := m.selected] || nvs' == nvs[ActiveRef := m.selected] - {TrialRef})
    else m' == m.(state := Corrupt) && PromoteCut(nvs, m, nvs')
  }

  predicate DiscardCut(nvs: Blobs, m: Mem, cut: Blobs) {
    cut == nvs || (m.state == Trial && cut == nvs - {TrialRef})
  }

  predicate Discarded(nvs: Blobs, m: Mem, ok: bool, nvs': Blobs, m': Mem) {
    if ok then m.state == Trial && |m.selected| > 0 && nvs' == nvs - {TrialRef} &&
               m' == m.(state := Empty, config := BLANK, nextSlot := Other(m.selected[0]))
    else m' == m.(state := Corrupt) && DiscardCut(nvs, m, nvs')
  }

  function Other(slot: byte): byte {
    if slot == 0 then 1 else 0
  }

  const WIPED: seq<Key> := [ActiveRef, TrialRef, CfgA, CfgB, GhAuto, ResetMark]

  /** The keys an interrupted reset has erased: the first k in its order. */
  function Wiped(nvs: Blobs, k: nat): Blobs
    requires k <= |WIPED|
  {
    if k == 0 then nvs else Wiped(nvs, k - 1) - {WIPED[k - 1]}
  }

  predicate ResumeCut(nvs: Blobs, cut: Blobs) {
    cut == nvs ||
    (StoredAt(nvs, ResetMark, RECORD_BYTES) == Blob(MARKER) && exists k :: 0 <= k <= |WIPED| && cut == Wiped(nvs, k))
  }

  predicate Resumed(nvs: Blobs, m: Mem, ok: bool, nvs': Blobs, m': Mem) {
    if ok then
      if ResetMark !in nvs then nvs' == nvs && m' == m
      else nvs[ResetMark] == MARKER && nvs' == Wiped(nvs, |WIPED|) && m' == Mem(Empty, BLANK, 0, NO_REFERENCE, 0)
    else m'.state == Corrupt && ResumeCut(nvs, nvs')
  }

  predicate ResetPending(nvs: Blobs) {
    ResetMark in nvs && nvs[ResetMark] == MARKER
  }

  /** Boot: finish a pending reset, then load. A failure anywhere leaves a corrupt memory, that is the fault mode. */
  predicate Booted(nvs: Blobs, nvs': Blobs, m: Mem) {
    || (m.state == Corrupt && ResumeCut(nvs, nvs'))
    || (ResetMark !in nvs && nvs' == nvs && m == Load(nvs, NO_REFERENCE))
    || (ResetPending(nvs) && nvs' == Wiped(nvs, |WIPED|) && m == Load(nvs', NO_REFERENCE))
  }

  /** Boot when nothing fails: after a reset the store is empty; otherwise it is what load finds, unless the mark of a
      reset is damaged. */
  predicate BootedSound(nvs: Blobs, asked: bool, nvs': Blobs, m: Mem) {
    if asked || ResetPending(nvs)
    then nvs' == nvs - {ActiveRef, TrialRef, CfgA, CfgB, GhAuto, ResetMark} &&
         m == Mem(Empty, BLANK, 0, NO_REFERENCE, 0)
    else nvs' == nvs && (if ResetMark in nvs then m.state == Corrupt else m == Load(nvs, NO_REFERENCE))
  }

  lemma WipedAll(nvs: Blobs)
    ensures Wiped(nvs, |WIPED|) == nvs - {ActiveRef, TrialRef, CfgA, CfgB, GhAuto, ResetMark}
    ensures Load(Wiped(nvs, |WIPED|), NO_REFERENCE) == Mem(Empty, BLANK, 0, NO_REFERENCE, 0)
  {
    hide DecodeConfig, Reference, ValidReference;
    assert Wiped(nvs, 3) == nvs - {ActiveRef} - {TrialRef} - {CfgA} by {
      assert Wiped(nvs, 1) == Wiped(nvs, 0) - {ActiveRef} && Wiped(nvs, 2) == Wiped(nvs, 1) - {TrialRef};
    }
    assert Wiped(nvs, 4) == Wiped(nvs, 3) - {CfgB} && Wiped(nvs, 5) == Wiped(nvs, 4) - {GhAuto};
    assert Wiped(nvs, |WIPED|) == Wiped(nvs, 5) - {ResetMark};
    assert Wiped(nvs, |WIPED|) == nvs - {ActiveRef, TrialRef, CfgA, CfgB, GhAuto, ResetMark};
  }

  lemma MarkedWiped(nvs: Blobs)
    ensures nvs[ResetMark := MARKER] - {ActiveRef, TrialRef, CfgA, CfgB, GhAuto, ResetMark} ==
            nvs - {ActiveRef, TrialRef, CfgA, CfgB, GhAuto, ResetMark}
  {
  }

  /** A finished resumption and a load make a boot. */
  lemma BootComposes(mid: Blobs, nvs: Blobs, before: Mem, after: Mem, got: Reads)
    requires Resumed(mid, before, true, nvs, after) && before.selected == NO_REFERENCE && got.Of(nvs)
    ensures Booted(mid, nvs, LoadFrom(got.a, got.b, got.active, got.trial, after.selected))
  {
    hide LoadFrom, Load, Wiped;
    LoadsUnlessReadsFail(nvs, got, after.selected);
    if ResetMark in mid {
      assert StoredAt(mid, ResetMark, RECORD_BYTES) == Blob(MARKER);
      assert nvs == Wiped(mid, |WIPED|);
    }
  }

  predicate ResetCut(nvs: Blobs, cut: Blobs) {
    cut == nvs || ResumeCut(nvs[ResetMark := MARKER], cut)
  }

  predicate WasReset(nvs: Blobs, m: Mem, ok: bool, nvs': Blobs, m': Mem) {
    if ok then nvs' == Wiped(nvs[ResetMark := MARKER], |WIPED|) && m' == Mem(Empty, BLANK, 0, NO_REFERENCE, 0)
    else m'.state == Corrupt && ResetCut(nvs, nvs')
  }

  /** The states logged from index start on differ from before in NVS only. */
  ghost predicate OnlyNvs(before: Durable, log: seq<Durable>, start: nat) {
    forall i | start <= i < |log| :: log[i] == before.(nvs := log[i].nvs)
  }

  class Store {
    const board: Board
    var state: State
    var config: WifiConfig
    var revision: u32
    var selected: seq<byte>
    var nextSlot: byte

    function Memory(): Mem
      reads this
    {
      Mem(state, config, revision, selected, nextSlot)
    }

    constructor (board: Board)
      ensures this.board == board && Memory() == FRESH
    {
      this.board := board;
      state, config, revision, selected, nextSlot := Corrupt, BLANK, 0, NO_REFERENCE, 0;
    }

    method CheckedWrite(key: Key, data: seq<byte>) returns (ok: bool)
      requires 0 < |data| <= RECORD_BYTES
      modifies board
      ensures WriteOutcome(old(board.d.nvs), board.d.nvs, key, data, ok) && (board.sound ==> ok)
      ensures board.d == old(board.d).(nvs := board.d.nvs) && board.log == old(board.log) + [board.d]
    {
      ok := board.Write(key, data);
      if ok {
        var check := board.Read(key, RECORD_BYTES);
        ok := check == Blob(data);
      }
    }

    method LoadStore() returns (ghost got: Reads)
      modifies this
      ensures got.Of(board.d.nvs)
      ensures Memory() == LoadFrom(got.a, got.b, got.active, got.trial, old(selected))
      ensures board.sound ==> Memory() == Load(board.d.nvs, old(selected))
    {
      hide DecodeConfig, Reference, ValidReference, StoredAt;
      got := Reads(ReadError, ReadError, ReadError, ReadError);
      state, config, revision, nextSlot := Corrupt, BLANK, 0, 0;
      var configs: seq<Option<WifiConfig>> := [None, None];
      var damaged := false;
      for i := 0 to 2
        invariant state == Corrupt && config == BLANK && selected == old(selected) && |configs| == 2
        invariant got.Of(board.d.nvs)
        invariant i > 0 && board.sound ==> got.a == StoredAt(board.d.nvs, CfgA, RECORD_BYTES)
        invariant i > 1 && board.sound ==> got.b == StoredAt(board.d.nvs, CfgB, RECORD_BYTES)
        invariant i < 2 ==> configs[1] == None
        invariant i > 0 ==> configs[0] == Decoded(got.a) && !got.a.ReadError?
        invariant i > 1 ==> configs[1] == Decoded(got.b) && !got.b.ReadError?
        invariant damaged == ((i > 0 && Damaged(got.a)) || (i > 1 && Damaged(got.b)))
        invariant (revision, nextSlot) == if i == 0 then (0, 0) else Newest(configs[0], configs[1])
      {
        var r := board.Read(if i == 1 then CfgB else CfgA, RECORD_BYTES);
        got := if i == 1 then got.(b := r) else got.(a := r);
        if r.ReadError? { return; }
        var c := Decoded(r);
        configs := configs[i := c];
        damaged := damaged || (r != Missing && c.None?);
        if c.Some? && c.value.revision >= revision { revision, nextSlot := c.value.revision, 1 - i; }
      }
      var active := board.Read(ActiveRef, REFERENCE_BYTES);
      var trial := board.Read(TrialRef, REFERENCE_BYTES);
      got := got.(active := active, trial := trial);
      if active.ReadError? || trial.ReadError? { return; }
      if active.Blob? {
        if !ValidReference(active.bytes, configs[0], configs[1]) { return; }
        if trial.Blob? && trial.bytes != active.bytes { return; }
        selected := active.bytes;
        config := Chosen(active.bytes, configs[0], configs[1]);
        state := Active;
      } else if trial.Blob? {
        if !ValidReference(trial.bytes, configs[0], configs[1]) { return; }
        selected := trial.bytes;
        config := Chosen(trial.bytes, configs[0], configs[1]);
        state := Trial;
      } else if !damaged {
        state := Empty;
      }
    }

    method Stage(candidate: WifiConfig) returns (ok: bool)
      modifies this, board
      ensures Staged(old(board.d.nvs), old(Memory()), candidate, ok, board.d.nvs, Memory())
      ensures board.sound ==> ok == MayStage(old(Memory()), candidate)
      ensures old(board.log) <= board.log && board.d == old(board.d).(nvs := board.d.nvs)
      ensures OnlyNvs(old(board.d), board.log, |old(board.log)|)
      ensures forall i | |old(board.log)| <= i < |board.log| ::
                StageCut(old(board.d.nvs), old(Memory()), candidate, board.log[i].nvs)
    {
      hide EncodeConfig, Reference, ValidWifi;
      if state != Empty || candidate.revision != revision || revision == U32_MAX ||
          !ValidWifi(candidate) { return false; }
      var next: WifiConfig := candidate.(revision := candidate.revision + 1);
      var bytes := EncodeConfig(next);
      selected := Reference(nextSlot, next);
      ok := CheckedWrite(SlotKey(nextSlot), bytes);
      if ok { ok := CheckedWrite(TrialRef, selected); }
      if !ok { state := Corrupt; return false; }
      config, revision, state := next, next.revision, Trial;
    }

    method Promote() returns (ok: bool)
      requires state == Trial ==> |selected| == REFERENCE_BYTES
      modifies this, board
      ensures Promoted(old(board.d.nvs), old(Memory()), ok, board.d.nvs, Memory())
      ensures board.sound ==>
                ok == (old(state) == Trial) &&
                (ok ==> board.d.nvs == old(board.d.nvs)[ActiveRef := selected] - {TrialRef})
      ensures old(board.log) <= board.log && board.d == old(board.d).(nvs := board.d.nvs)
      ensures OnlyNvs(old(board.d), board.log, |old(board.log)|)
      ensures forall i | |old(board.log)| <= i < |board.log| ::
                PromoteCut(old(board.d.nvs), old(Memory()), board.log[i].nvs)
    {
      if state != Trial { state := Corrupt; return false; }
      ok := CheckedWrite(ActiveRef, selected);
      if !ok { state := Corrupt; return false; }
      var erased := board.Erase(TrialRef); // active is authoritative even if this fails
      state := Active;
    }

    method DiscardTrial() returns (ok: bool)
      requires state == Trial ==> |selected| == REFERENCE_BYTES && selected[0] <= 1
      modifies this, board
      ensures Discarded(old(board.d.nvs), old(Memory()), ok, board.d.nvs, Memory())
      ensures board.sound ==> ok == (old(state) == Trial)
      ensures old(board.log) <= board.log && board.d == old(board.d).(nvs := board.d.nvs)
      ensures OnlyNvs(old(board.d), board.log, |old(board.log)|)
      ensures forall i | |old(board.log)| <= i < |board.log| ::
                DiscardCut(old(board.d.nvs), old(Memory()), board.log[i].nvs)
    {
      if state != Trial { state := Corrupt; return false; }
      ok := board.Erase(TrialRef);
      if ok {
        var check := board.Read(TrialRef, REFERENCE_BYTES);
        ok := check == Missing;
      }
      if !ok { state := Corrupt; return false; }
      config := BLANK;
      nextSlot := 1 - selected[0];
      state := Empty;
    }

    method ResumeReset() returns (ok: bool)
      modifies this, board
      ensures Resumed(old(board.d.nvs), old(Memory()), ok, board.d.nvs, Memory())
      ensures board.sound ==> ok == (ResetMark !in old(board.d.nvs) || ResetPending(old(board.d.nvs)))
      ensures old(board.log) <= board.log && board.d == old(board.d).(nvs := board.d.nvs)
      ensures OnlyNvs(old(board.d), board.log, |old(board.log)|)
      ensures forall i | |old(board.log)| <= i < |board.log| ::
                ResumeCut(old(board.d.nvs), board.log[i].nvs)
    {
      var mark := board.Read(ResetMark, RECORD_BYTES);
      if mark == Missing { return true; }
      state := Corrupt;
      if mark != Blob(MARKER) { return false; }
      ghost var start := board.d.nvs;
      assert StoredAt(start, ResetMark, RECORD_BYTES) == Blob(MARKER);
      for k := 0 to |WIPED|
        invariant state == Corrupt && board.d.nvs == Wiped(start, k)
        invariant board.d == old(board.d).(nvs := board.d.nvs) && old(board.log) <= board.log
        invariant OnlyNvs(old(board.d), board.log, |old(board.log)|)
        invariant forall i | |old(board.log)| <= i < |board.log| :: ResumeCut(start, board.log[i].nvs)
      {
        ghost var before := board.log;
        ok := board.Erase(WIPED[k]);
        assert Wiped(start, k + 1) == Wiped(start, k) - {WIPED[k]};
        assert ResumeCut(start, board.d.nvs);
        assert forall i | 0 <= i < |board.log| :: board.log[i] == if i < |before| then before[i] else board.d;
        if !ok { return false; }
        var check := board.Read(WIPED[k], RECORD_BYTES);
        if check != Missing { return false; }
      }
      config, revision, nextSlot, selected := BLANK, 0, 0, NO_REFERENCE;
      state := Empty;
      return true;
    }

    method ResetWifi() returns (ok: bool)
      modifies this, board
      ensures WasReset(old(board.d.nvs), old(Memory()), ok, board.d.nvs, Memory()) && (board.sound ==> ok)
      ensures old(board.log) <= board.log && board.d == old(board.d).(nvs := board.d.nvs)
      ensures OnlyNvs(old(board.d), board.log, |old(board.log)|)
      ensures forall i | |old(board.log)| <= i < |board.log| ::
                ResetCut(old(board.d.nvs), board.log[i].nvs)
    {
      state := Corrupt;
      ok := CheckedWrite(ResetMark, MARKER);
      if !ok {
        assert ResetCut(old(board.d.nvs), board.d.nvs);
        return false;
      }
      ghost var marked := board.d.nvs;
      ghost var before := board.log;
      assert ResetCut(old(board.d.nvs), marked);
      ok := ResumeReset();
      assert forall i | 0 <= i < |before| :: board.log[i] == before[i];
    }

    /** The store's part of startApplication: a reset asked for or pending comes first, and load only behind it. */
    method Boot(resetRequested: bool) returns (usable: bool, ghost mid: Blobs)
      requires state == Corrupt && selected == NO_REFERENCE
      modifies this, board
      ensures mid == old(board.d.nvs) || (resetRequested && mid == old(board.d.nvs)[ResetMark := MARKER])
      ensures Booted(mid, board.d.nvs, Memory()) && usable == (state != Corrupt)
      ensures usable && resetRequested ==> mid == old(board.d.nvs)[ResetMark := MARKER]
      ensures board.sound ==> BootedSound(old(board.d.nvs), resetRequested, board.d.nvs, Memory())
      ensures old(board.log) <= board.log && board.d == old(board.d).(nvs := board.d.nvs)
      ensures OnlyNvs(old(board.d), board.log, |old(board.log)|)
      ensures forall i | |old(board.log)| <= i < |board.log| ::
                if resetRequested then ResetCut(old(board.d.nvs), board.log[i].nvs)
                else ResumeCut(old(board.d.nvs), board.log[i].nvs)
    {
      hide LoadFrom, Load;
      mid := board.d.nvs;
      var ok;
      if resetRequested { ok, mid := ResetAndMark(); } else { ok := ResumeReset(); }
      if !ok { return false, mid; }
      ghost var after := Memory();
      ghost var got := LoadStore();
      BootComposes(mid, board.d.nvs, old(Memory()), after, got);
      WipedAll(mid);
      MarkedWiped(old(board.d.nvs));
      usable := state != Corrupt;
    }

    /** resetWifi, naming the durable state its marker left. */
    method ResetAndMark() returns (ok: bool, ghost mid: Blobs)
      modifies this, board
      ensures mid == old(board.d.nvs) || mid == old(board.d.nvs)[ResetMark := MARKER]
      ensures WasReset(old(board.d.nvs), old(Memory()), ok, board.d.nvs, Memory()) && (board.sound ==> ok)
      ensures ok ==> mid == old(board.d.nvs)[ResetMark := MARKER]
      ensures !ok ==> state == Corrupt && ResumeCut(mid, board.d.nvs)
      ensures old(board.log) <= board.log && board.d == old(board.d).(nvs := board.d.nvs)
      ensures OnlyNvs(old(board.d), board.log, |old(board.log)|)
      ensures forall i | |old(board.log)| <= i < |board.log| :: ResetCut(old(board.d.nvs), board.log[i].nvs)
    {
      ok := ResetWifi();
      mid := if ok || board.d.nvs != old(board.d.nvs) then old(board.d.nvs)[ResetMark := MARKER]
             else old(board.d.nvs);
    }
  }
}
