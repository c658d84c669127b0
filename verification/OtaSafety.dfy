/** Every step of the device keeps its invariant, so every run does, whatever fails and wherever power is cut. */
module OtaSafety {
  import opened Bytes
  import opened Clock
  import opened Manifest
  import opened Hardware
  import opened OtaSpec
  import opened OtaRuns

  // ---- Records ---------------------------------------------------------------------------------------

  lemma RecordsDecide(a: Blobs, b: Blobs)
    requires SameRecords(a, b)
    ensures ReadContext(a, false) == ReadContext(b, false)
    ensures ReadJournal(a, false) == ReadJournal(b, false)
    ensures BootOrigin(a) == BootOrigin(b)
  {
    hide DecodeContext, DecodeJournal, ContextMatches;
  }

  lemma ContextWritten(nvs: Blobs, c: Context)
    requires ContextOk(c)
    ensures ReadContext(nvs[OtaContext := EncodeContext(c)], false) == Valid(AsStored(c))
    ensures ReadJournal(nvs[OtaContext := EncodeContext(c)], false) == ReadJournal(nvs, false)
  {
    hide EncodeContext, DecodeContext, DecodeJournal, ContextOk;
    DecodeOfEncodeContext(c);
  }

  lemma JournalWritten(nvs: Blobs, m: Manifest, transaction: seq<byte>)
    requires m.Canonical() && ValidToken(transaction)
    ensures var after := nvs[Ota := EncodeJournal(m, transaction)];
            ReadContext(after, false) == ReadContext(nvs, false) &&
            ReadJournal(after, false) == Some(Some((m.Legacy(), transaction)))
  {
    hide EncodeJournal, DecodeJournal, DecodeContext, TextField;
    DecodeOfEncodeJournal(m, transaction);
  }

  lemma SignedIsCanonical(k: Kit, m: Manifest, origin: Origin)
    requires SignedManifest(k, m, origin)
    ensures m.Canonical()
  {
    hide DecodeManifest, DecodePackage, TextField, EncodeManifest, EncodePackage;
    var n := ManifestSize(origin);
    var bytes: seq<byte> :| |bytes| == n + ENVELOPE_SIGNATURE && DecodeFor(origin, bytes[..n]) == Some(m) &&
      k.verify(bytes[n..], k.key, bytes[..n]);
    if origin == LegacyPush { EncodeOfDecode(bytes[..n]); } else { EncodeOfDecodePackage(bytes[..n]); }
  }

  // ---- Histories -------------------------------------------------------------------------------------

  lemma Appended(h: seq<Event>, e: Event)
    ensures LastContext(h + [e]) == if e.ContextDurable? then Some(e.context) else LastContext(h)
    ensures LastSelected(h + [e]) == if e.BootSelected? then Some(e.attempt) else LastSelected(h)
  {
    assert (h + [e])[..|h|] == h;
  }

  predicate BeginAllowed(h: seq<Event>, a: Attempt) {
    var own := |h| > 0 && h[|h| - 1].ContextDurable? && OwnBegin(h[|h| - 1].context, a);
    && (a.origin != LegacyPush ==> own)
    && forall i | 0 <= i < |h| && h[i].ContextDurable? ::
         a.manifest.version > h[i].context.manifest.version || (i == |h| - 1 && own)
  }

  lemma BeginsGrow(h: seq<Event>, e: Event)
    requires Fence(h) && ContextFirst(h)
    requires e.FlashBegun? ==> BeginAllowed(h, e.attempt)
    ensures Fence(h + [e]) && ContextFirst(h + [e])
  {
  }

  lemma MarksGrow(h: seq<Event>, e: Event)
    requires NoSelfConfirm(h)
    requires e == MarkedValid(true) ==> LastSelected(h).Some? && LastSelected(h).value.origin != LegacyPush
    ensures NoSelfConfirm(h + [e])
  {
    hide LastSelected;
    var g := h + [e];
    forall i | 0 <= i < |g| && g[i] == MarkedValid(true)
      ensures LastSelected(g[..i]).Some? && LastSelected(g[..i]).value.origin != LegacyPush
    {
      assert g[..i] == h[..i];
      if i == |h| { assert h[..i] == h; }
    }
  }

  lemma HistoryGrows(h: seq<Event>, e: Event)
    requires HistoryOk(h)
    requires e.FlashBegun? ==> BeginAllowed(h, e.attempt)
    requires e.ContextDurable? ==>
             forall i | 0 <= i < |h| &&
                 h[i].ContextDurable? :: h[i].context.manifest.version < e.context.manifest.version
    requires e == MarkedValid(true) ==> LastSelected(h).Some? && LastSelected(h).value.origin != LegacyPush
    ensures HistoryOk(h + [e])
  {
    hide Fence, ContextFirst, NoSelfConfirm, LastSelected, BeginAllowed;
    BeginsGrow(h, e);
    MarksGrow(h, e);
  }

  // ---- One step ----------------------------------------------------------------------------------------

  /** The running slot is not touched, nor the other one while the running image is on trial; the past is not
      rewritten. */
  predicate SlotsKept(s: Device, d: Durable)
    requires Shaped(s)
  {
    && |d.slots| == 2 && d.slots[s.running] == s.d.slots[s.running]
    && (s.d.image == OnTrial ==> d.slots == s.d.slots)
    && s.d.history <= d.history
  }

  ghost predicate GoodCut(k: Kit, s: Device, d: Durable)
    requires Shaped(s)
  {
    DurableInv(k, d) && SlotsKept(s, d)
  }

  ghost predicate Kept(k: Kit, s: Device, r: (Device, seq<Durable>))
    requires Shaped(s)
  {
    && Inv(k, r.0) && r.0.running == s.running && GoodCut(k, s, r.0.d)
    && forall d | d in r.1 :: GoodCut(k, s, d)
  }

  lemma TickKeeps(k: Kit, s: Device, now: u32)
    requires Inv(k, s)
    ensures Inv(k, Ticked(s, now)) && Ticked(s, now).d == s.d
    ensures Ticked(s, now).u.phase != Failed ==> Ticked(s, now) == s
  {
    hide DurableInv, SignedManifest, ReadContext, BootOrigin;
  }

  lemma PrepareKeeps(k: Kit, s: Device, bytes: seq<byte>, token: seq<byte>, origin: Origin, now: u32, fault: bool)
    requires Inv(k, s)
    ensures Inv(k, PrepareRun(k, s, bytes, token, origin, now, fault))
  {
    hide DurableInv, BootOrigin, Examine, UsableKey, SignedManifest, ValidToken, ReadContext, AsStored, Available,
        AboveFence, OtaSpec.Prepare, Matches;
    TickKeeps(k, s, now);
    var t := Ticked(s, now);
    var (reason, m) := Examine(k, Id(k, s).version, bytes, origin);
    ExamineIsSound(k, Id(k, s).version, bytes, origin);
    AvailableIsAbove(s.d, m, fault);
    PrepareOutcome(t.u, k, Id(k, s).version, bytes, token, origin, now, Available(t.d.nvs, m, fault));
    PrepareOutcome(t.u, k, Id(k, s).version, bytes, token, origin, now, false);
  }

  /** prepareAs refuses while busy, fails, or takes the whole attempt in hand. */
  lemma PrepareOutcome(u: Updater, k: Kit, version: u32, bytes: seq<byte>, token: seq<byte>, origin: Origin,
      now: u32, available: bool)
    ensures var (next, ok) := OtaSpec.Prepare(u, k, version, bytes, token, origin, now, available);
            var (reason, m) := Examine(k, version, bytes, origin);
            if u.phase != Idle && u.phase != Failed then !ok && next == u.(reason := OtaBusy)
            else if ok then reason == NoReason && available && ValidToken(token) && UsableKey(k.key) &&
                            next == Updater(Prepared, NoReason, m, origin, token, now, now, 0)
            else next.phase == Failed
  {
    hide Examine, UsableKey, ValidToken;
  }

  lemma AvailableIsAbove(d: Durable, m: Manifest, fault: bool)
    ensures Available(d.nvs, m, fault) ==> AboveFence(d, m.version)
  {
    hide DecodeContext;
  }

  /** The checks pass only a signed, canonical manifest newer than the running image. */
  lemma ExamineIsSound(k: Kit, version: u32, bytes: seq<byte>, origin: Origin)
    ensures var (reason, m) := Examine(k, version, bytes, origin);
            reason == NoReason ==> SignedManifest(k, m, origin) && m.Canonical() && m.version > version
  {
    hide DecodeManifest, DecodePackage, TextField, CStr;
    var (reason, m) := Examine(k, version, bytes, origin);
    if reason == NoReason {
      assert SignedManifest(k, m, origin);
      SignedIsCanonical(k, m, origin);
    }
  }

  predicate OwnOrAbove(d: Durable, a: Attempt) {
    if a.origin == LegacyPush then AboveFence(d, a.manifest.version)
    else ReadContext(d.nvs, false) == Valid(AsStored(Context(a.manifest, a.transaction, a.origin))) &&
         |d.history| > 0 && d.history[|d.history| - 1] == ContextDurable(Context(a.manifest, a.transaction, a.origin))
  }

  /** A package the host tool built, signed with the device's key, passes every check of a device that runs an older
      version and knows its schema. */
  lemma HostPackagePasses(k: Kit, running: u32, version: u32, imageSize: u32, schema: u32, build: seq<byte>,
      sha: seq<byte>,
                          signature: seq<byte>, origin: Origin)
    requires running < version && 0 < schema <= k.schema && 32 <= imageSize <= IMAGE_MAX && |sha| == 32
    requires 0 < |build| <= 47 && (forall i | 0 <= i < |build| :: TextChar(build[i])) && origin != LegacyPush
    requires |signature| == ENVELOPE_SIGNATURE &&
             k.verify(signature, k.key, HostPack(version, imageSize, schema, build, sha))
    ensures var m := Fields(version, imageSize, schema, Padded(BOARD, 16), Padded(build, 48), sha, 2, STABLE);
            Examine(k, running, HostPack(version, imageSize, schema, build, sha) + signature, origin) == (NoReason, m)
  {
    hide DecodePackage, HostPack, TextField, CStr, Padded;
    DeviceReadsHostPackage(version, imageSize, schema, build, sha);
    var pack := HostPack(version, imageSize, schema, build, sha);
    assert |pack| == PACKAGE_MANIFEST_BYTES by { HostPackSize(version, imageSize, schema, build, sha); }
    var bytes := pack + signature;
    assert bytes[..PACKAGE_MANIFEST_BYTES] == pack && bytes[PACKAGE_MANIFEST_BYTES..] == signature;
    CStrOfPadded(BOARD, 16);
    CStrUnique(STABLE, STABLE_TEXT);
  }

  lemma HostPackSize(version: u32, imageSize: u32, schema: u32, build: seq<byte>, sha: seq<byte>)
    requires |build| <= 47 && |sha| == 32
    ensures |HostPack(version, imageSize, schema, build, sha)| == PACKAGE_MANIFEST_BYTES
  {
    hide Le32, Padded;
  }

  /** authorize records at most its own context, and says yes only above the fence. */
  lemma AuthorizeKeeps(k: Kit, s: Device, w: Writer, a: Attempt, env: StartEnv)
    requires Inv(k, s) && s.d.image == Confirmed && a.manifest.Canonical() && ValidToken(a.transaction)
    requires AboveFence(s.d, a.manifest.version) && env.contextWrite.Possible()
    ensures var (w1, d1, authorized) := Authorize(w, s.d, a, env);
            GoodCut(k, s, d1) && d1.slots == s.d.slots && d1.image == Confirmed && d1.boot == s.d.boot &&
            (authorized ==>
               OwnOrAbove(d1, a) &&
               w1.authorized ==
               if a.origin == LegacyPush then NO_CONTEXT else Context(a.manifest, a.transaction, a.origin))
  {
    hide BootOrigin, EncodeContext, DecodeContext, DecodeJournal, TextField, Good, HistoryOk;
    var c := Context(a.manifest, a.transaction, a.origin);
    if a.origin != LegacyPush && Available(s.d.nvs, a.manifest, env.contextFault) && env.contextWrite.effective {
      ContextWritten(s.d.nvs, c);
      Appended(s.d.history, ContextDurable(c));
      HistoryGrows(s.d.history, ContextDurable(c));
    }
  }

  /** begin writes only the other slot, behind the fence. */
  lemma BeginKeeps(k: Kit, s: Device, w: Writer, d: Durable, a: Attempt, env: StartEnv)
    requires Shaped(s) && GoodCut(k, s, d) && d.image == Confirmed && d.boot == s.running && OwnOrAbove(d, a)
    requires s.d.image == Confirmed
    ensures var (w2, d2, begun) := Begin(w, d, s.running, k, a, env);
            GoodCut(k, s, d2) && d2.nvs == d.nvs && d2.image == Confirmed && d2.boot == d.boot &&
            w2.authorized == w.authorized &&
            (begun ==> w2.active && w2.hashed == d2.slots[OtaSpec.Other(s.running)] == [])
  {
    hide BootOrigin, Good, HistoryOk, DecodeContext, AsStored;
    if env.partitions && a.manifest.imageSize <= k.slotBytes {
      Appended(d.history, FlashBegun(a));
      BehindFence(d, a);
      HistoryGrows(d.history, FlashBegun(a));
    }
  }

  lemma BehindFence(d: Durable, a: Attempt)
    requires ContextTracked(d) && OwnOrAbove(d, a) && HistoryOk(d.history)
    ensures BeginAllowed(d.history, a)
  {
    hide Fence, ContextFirst, NoSelfConfirm, DecodeContext;
    if a.origin != LegacyPush {
      assert d.history[|d.history| - 1].ContextDurable?;
    }
  }

  lemma StartKeeps(k: Kit, s: Device, token: seq<byte>, size: nat, now: u32, env: StartEnv)
    requires Inv(k, s) && CanUpdate(s.rt, k) && env.contextWrite.Possible()
    ensures Kept(k, s, StartRun(k, s, token, size, now, env))
  {
    hide DurableInv, BootOrigin, Authorize, OtaSpec.Begin, ReadContext, SignedManifest, ValidToken, UsableKey, AsStored;
    TickKeeps(k, s, now);
    var t := Ticked(s, now);
    if StartRefused(t.u, token, size).None? {
      var a := AttemptOf(t.u);
      SignedIsCanonical(k, a.manifest, a.origin);
      var (w1, d1, authorized) := Authorize(t.w, t.d, a, env);
      AuthorizeKeeps(k, t, t.w, a, env);
      if authorized {
        BeginKeeps(k, t, w1, d1, a, env);
        FenceCarries(d1, Begin(w1, d1, s.running, k, a, env).1, a);
      }
    }
  }

  lemma FenceCarries(d1: Durable, d2: Durable, a: Attempt)
    requires OwnOrAbove(d1, a) && d2.nvs == d1.nvs
    ensures a.origin == LegacyPush ==> AboveFence(d2, a.manifest.version)
    ensures a.origin != LegacyPush ==>
            ReadContext(d2.nvs, false) == Valid(AsStored(Context(a.manifest, a.transaction, a.origin)))
  {
  }

  /** Changing only the other slot of a confirmed device is safe. */
  lemma OtherSlotKeeps(k: Kit, s: Device, content: seq<byte>)
    requires Inv(k, s) && s.d.image == Confirmed
    ensures GoodCut(k, s, SetSlot(s.d, OtaSpec.Other(s.running), content))
  {
    hide HistoryOk, Good, ReadContext, BootOrigin, LastContext;
  }

  lemma WriteKeeps(k: Kit, s: Device, bytes: seq<byte>, env: ChunkEnv)
    requires Inv(k, s) && s.d.image == Confirmed
    ensures var (w1, d1, wrote) := Write(s.w, s.d, s.running, bytes, env);
            GoodCut(k, s, d1) && d1.(slots := s.d.slots) == s.d && w1.authorized == s.w.authorized
    ensures var (w1, d1, wrote) := Write(s.w, s.d, s.running, bytes, env);
            wrote && s.w.hashed == s.d.slots[OtaSpec.Other(s.running)] ==>
              w1.active && w1.hashed == s.w.hashed + bytes == d1.slots[OtaSpec.Other(s.running)]
  {
    hide GoodCut, DurableInv, UpdaterInv, BootInv, RuntimeInv;
    assert GoodCut(k, s, s.d) by { CutHere(k, s); }
    match env.flash
    case Broken(garbage) => OtherSlotKeeps(k, s, garbage);
    case _ => OtherSlotKeeps(k, s, s.d.slots[OtaSpec.Other(s.running)] + bytes);
  }

  lemma CutHere(k: Kit, s: Device)
    requires Inv(k, s)
    ensures GoodCut(k, s, s.d)
  {
    hide DurableInv, UpdaterInv, BootInv, RuntimeInv;
  }

  /** The journal an admitted select leaves names its attempt, and reads back the origin it was begun under. */
  lemma JournalKeepsOrigin(d: Durable, w: Writer, a: Attempt, env: ChunkEnv)
    requires a.manifest.Canonical() && ValidToken(a.transaction) && MaySelect(w, d, a, env) && env.journal.effective
    requires a.origin == LegacyPush ==> AboveFence(d, a.manifest.version)
    requires a.origin != LegacyPush ==>
             ReadContext(d.nvs, false) == Valid(AsStored(Context(a.manifest, a.transaction, a.origin)))
    ensures var j := Journaled(w, d, a, env);
            ReadJournal(j.nvs, false) == Some(Some((a.manifest.Legacy(), a.transaction))) &&
            ReadContext(j.nvs, false) == ReadContext(d.nvs, false) && BootOrigin(j.nvs) == a.origin
  {
    hide EncodeManifest, EncodeJournal, DecodeJournal, DecodeContext, ReadContext, ReadJournal, TextField, MaySelect,
        ValidToken;
    JournalWritten(d.nvs, a.manifest, a.transaction);
    LegacyEncodesSame(a.manifest);
    if a.origin == LegacyPush {
      match ReadContext(d.nvs, false)
      case Valid(c) =>
        if EncodeManifest(c.manifest) == EncodeManifest(a.manifest) { EncodeInjective(c.manifest, a.manifest); }
      case _ =>
    }
  }

  /** Only a complete, matching image of a signed manifest is ever selected. */
  lemma SelectKeeps(k: Kit, s: Device, w: Writer, d: Durable, a: Attempt, env: ChunkEnv)
    requires Shaped(s) && s.d.image == Confirmed && GoodCut(k, s, d) && d.image == Confirmed && d.boot == s.running
    requires SignedManifest(k, a.manifest, a.origin) && ValidToken(a.transaction) && env.journal.Possible()
    requires a.origin == LegacyPush ==> AboveFence(d, a.manifest.version)
    requires a.origin != LegacyPush ==>
             ReadContext(d.nvs, false) == Valid(AsStored(Context(a.manifest, a.transaction, a.origin)))
    requires |d.slots[OtaSpec.Other(s.running)]| == a.manifest.imageSize
    requires k.sha(d.slots[OtaSpec.Other(s.running)]) == a.manifest.sha256
    ensures GoodCut(k, s, Journaled(w, d, a, env))
    ensures var (d2, selected) := Select(w, d, s.running, a, env);
            GoodCut(k, s, d2) &&
            (if selected then d2.image == Selected &&
                d2.boot == OtaSpec.Other(s.running) else d2.image == Confirmed && d2.boot == s.running)
  {
    hide MaySelect, SignedManifest, ValidToken, EncodeJournal, AsStored, HistoryOk, ReadContext, ReadJournal,
        BootOrigin, LastSelected, LastContext;
    SignedIsCanonical(k, a.manifest, a.origin);
    var j := Journaled(w, d, a, env);
    assert SignedImage(k, d.slots[OtaSpec.Other(s.running)]);
    if MaySelect(w, d, a, env) && env.journal.effective {
      JournalKeepsOrigin(d, w, a, env);
      Appended(j.history, BootSelected(a));
      HistoryGrows(j.history, BootSelected(a));
      ContextGrows(j, BootSelected(a));
    }
  }

  lemma ContextGrows(d: Durable, e: Event)
    requires ContextTracked(d) && !e.ContextDurable?
    ensures ContextTracked(Record(d, e))
  {
    hide ReadContext, AsStored;
    Appended(d.history, e);
  }

  lemma ChunkKeeps(k: Kit, s: Device, bytes: seq<byte>, now: u32, env: ChunkEnv)
    requires Inv(k, s) && env.journal.Possible()
    ensures Kept(k, s, ChunkRun(k, s, bytes, now, env))
  {
    hide DurableInv, BootOrigin, Write, Select, Journaled, ReadContext, SignedManifest, ValidToken, AsStored;
    TickKeeps(k, s, now);
    CutHere(k, s);
    var t := Ticked(s, now);
    if t.u.phase == Receiving && ChunkFits(t.u, |bytes|) {
      WriteKeeps(k, t, bytes, env);
      var (w1, d1, wrote) := Write(t.w, t.d, s.running, bytes, env);
      var next := Progressed(t.u, |bytes|, now);
      if wrote && next.received == next.manifest.imageSize {
        var (w2, digest) := Finish(w1, k, env);
        if digest == Some(next.manifest.sha256) {
          SelectKeeps(k, t, w2, d1, AttemptOf(next), env);
        }
      }
    }
  }

  lemma GivenUpKeeps(k: Kit, s: Device)
    requires Inv(k, s) && s.d.image == OnTrial
    ensures GoodCut(k, s, GivenUp(s.d))
  {
    hide HistoryOk, Good, ReadContext, BootOrigin, LastContext, LastSelected, SignedManifest;
  }

  lemma MarkKeeps(k: Kit, s: Device, byPoll: bool)
    requires Inv(k, s) && s.rt.pending && !s.rt.fatal
    requires byPoll ==> s.begun && s.rt.origin != LegacyPush
    ensures Inv(k, MarkValid(s, byPoll)) && GoodCut(k, s, MarkValid(s, byPoll).d)
  {
    hide HistoryOk, Good, ReadContext, ReadJournal, BootOrigin, LastContext, LastSelected, SignedManifest, AsStored;
    Appended(s.d.history, MarkedValid(byPoll));
    HistoryGrows(s.d.history, MarkedValid(byPoll));
    ContextGrows(s.d, MarkedValid(byPoll));
  }

  lemma PollKeeps(k: Kit, s: Device, now: u32, healthy: bool, env: MarkEnv)
    requires Inv(k, s)
    ensures Kept(k, s, PollRun(k, s, now, healthy, env))
  {
    hide DurableInv, UpdaterInv, BootOrigin, MayConfirm, GivenUp;
    TickKeeps(k, s, now);
    CutHere(k, s);
    var t := Ticked(s, now);
    var (rt, result) := Poll(t.rt, now, healthy);
    var seen := t.(rt := rt);
    SeenKeeps(k, t, rt);
    match result
    case Nothing =>
    case Rollback => GivenUpKeeps(k, s);
    case AskConfirm =>
      if MayConfirm(rt, k, Id(k, s), rt.transaction, true, now) && env.marks {
        assert rt.pending && !rt.fatal;
        MarkKeeps(k, seen, true);
      }
  }

  /** The updater's part does not look at the runtime. */
  lemma SeenKeeps(k: Kit, s: Device, rt: Runtime)
    requires Inv(k, s) && BootInv(s.(rt := rt)) && RuntimeInv(s.(rt := rt))
    ensures Inv(k, s.(rt := rt))
  {
    hide DurableInv, BootOrigin, SignedManifest;
  }

  lemma ConfirmKeeps(k: Kit, s: Device, transaction: seq<byte>, healthy: bool, now: u32, env: MarkEnv)
    requires Inv(k, s)
    ensures Kept(k, s, ConfirmRun(k, s, transaction, healthy, now, env))
  {
    hide DurableInv, UpdaterInv, BootInv, RuntimeInv, Matches;
    CutHere(k, s);
    if MayConfirm(s.rt, k, Id(k, s), transaction, healthy, now) && env.marks { MarkKeeps(k, s, false); }
  }

  /** begin keeps a trial going only under the origin its image was selected with. */
  lemma RecallKeepsOrigin(k: Kit, s: Device, env: BeginEnv)
    requires !s.begun && s.rt.origin == LegacyPush && Shaped(s)
    ensures var (rt, rollback) := BeginRuntime(s.rt, s.d.nvs, k, Id(k, s), env);
            (rt.pending && !rt.fatal ==>
               rt.origin == BootOrigin(s.d.nvs) &&
                   ReadJournal(s.d.nvs, false) == Some(Some((rt.expected, rt.transaction)))) &&
            (rollback ==> s.rt.pending && !rt.pending && rt.fatal) &&
            (!rollback ==> rt.pending == s.rt.pending && (s.rt.fatal ==> rt.fatal))
  {
    hide ContextMatches, DecodeContext, DecodeJournal, Matches;
  }

  lemma BeginRunKeeps(k: Kit, s: Device, env: BeginEnv, mark: MarkEnv)
    requires Inv(k, s) && !s.begun
    ensures Kept(k, s, BeginRun(k, s, env, mark))
  {
    hide DurableInv, UpdaterInv, BootOrigin, BeginRuntime, GivenUp;
    RecallKeepsOrigin(k, s, env);
    CutHere(k, s);
    var (rt, rollback) := BeginRuntime(s.rt, s.d.nvs, k, Id(k, s), env);
    BegunKeeps(k, s, rt);
    if rollback { GivenUpKeeps(k, s); }
  }

  lemma BegunKeeps(k: Kit, s: Device, rt: Runtime)
    requires Inv(k, s) && BootInv(s.(rt := rt, begun := true)) && RuntimeInv(s.(rt := rt, begun := true))
    ensures Inv(k, s.(rt := rt, begun := true))
  {
    hide DurableInv, BootOrigin, SignedManifest;
  }

  lemma OtherKeeps(k: Kit, s: Device, nvs: Blobs)
    requires Inv(k, s) && SameRecords(nvs, s.d.nvs)
    ensures var after := s.(d := s.d.(nvs := nvs)); Inv(k, after) && GoodCut(k, s, after.d)
  {
    hide HistoryOk, Good, ReadContext, ReadJournal, BootOrigin, LastContext, LastSelected, SignedManifest, AsStored,
        SameRecords;
    RecordsDecide(nvs, s.d.nvs);
  }

  /** Every operation keeps the invariant, at its end and at each durable state on the way. */
  lemma ExecKeeps(k: Kit, s: Device, op: Op)
    requires Inv(k, s) && Enabled(k, s, op)
    ensures Kept(k, s, Exec(k, s, op))
  {
    hide DurableInv, SlotsKept, SignedManifest, ReadContext, BootOrigin, PrepareRun, StartRun, ChunkRun, PollRun,
        ConfirmRun, BeginRun, SameRecords, CanUpdate;
    CutHere(k, s);
    match op
    case DoPrepare(bytes, token, origin, now, fault) =>
      PrepareKeeps(k, s, bytes, token, origin, now, fault);
      PrepareIsLocal(k, s, bytes, token, origin, now, fault);
    case DoStart(token, size, now, env) => StartKeeps(k, s, token, size, now, env);
    case DoChunk(bytes, now, env) => ChunkKeeps(k, s, bytes, now, env);
    case DoTick(now) => TickKeeps(k, s, now);
    case DoInterrupt =>
    case DoPoll(now, healthy, env) => PollKeeps(k, s, now, healthy, env);
    case DoConfirm(transaction, healthy, now, env) => ConfirmKeeps(k, s, transaction, healthy, now, env);
    case DoBegin(env, mark) => BeginRunKeeps(k, s, env, mark);
    case DoWatchdogFault => SeenKeeps(k, s, s.rt.(fatal := true, state := WatchdogError));
    case DoOther(nvs) => OtherKeeps(k, s, nvs);
  }

  lemma PrepareIsLocal(k: Kit, s: Device, bytes: seq<byte>, token: seq<byte>, origin: Origin, now: u32, fault: bool)
    requires Shaped(s)
    ensures var r := PrepareRun(k, s, bytes, token, origin, now, fault); r.d == s.d && r.running == s.running
  {
    hide Examine, Available, Noted, OtaSpec.Prepare;
  }

  /** A reset finds its way from any safe durable state. */
  lemma PowerOnKeeps(k: Kit, d: Durable, now: u32, env: ArmEnv)
    requires DurableInv(k, d)
    ensures Inv(k, PowerOn(d, now, env))
  {
    hide HistoryOk, Good, ReadContext, ReadJournal, BootOrigin, LastContext, LastSelected, SignedManifest, AsStored;
  }

  lemma InvIsProper(k: Kit, s: Device)
    requires Inv(k, s)
    ensures Proper(s)
  {
  }

  lemma StepKeeps(k: Kit, s: Device, step: Step)
    requires Inv(k, s) && StepEnabled(k, s, step)
    ensures Inv(k, Next(k, s, step))
  {
    hide DurableInv, UpdaterInv, BootInv, RuntimeInv, Exec, PowerOn, Enabled, SlotsKept;
    InvIsProper(k, s);
    ExecKeeps(k, s, step.op);
    CutHere(k, s);
    match step
    case Do(_) =>
    case PowerCut(op, at, now, arm) =>
      var cuts := Exec(k, s, op).1;
      var d := if at < |cuts| then cuts[at] else s.d;
      assert at < |cuts| ==> d in cuts;
      assert GoodCut(k, s, d);
      PowerOnKeeps(k, d, now, arm);
  }

  lemma FactoryIsSafe(k: Kit, d: Durable)
    requires Factory(k, d)
    ensures DurableInv(k, d)
  {
    hide SignedImage, DecodeContext;
  }

  lemma {:induction false} RunKeeps(k: Kit, states: seq<Device>, steps: seq<Step>, i: nat)
    requires Run(k, states, steps) && i < |states|
    ensures Inv(k, states[i])
  {
    hide Inv, Next, PowerOn, Factory, StepEnabled, Proper;
    if i == 0 {
      var d: Durable, now: u32, env: ArmEnv :| Factory(k, d) && states[0] == PowerOn(d, now, env);
      FactoryIsSafe(k, d);
      PowerOnKeeps(k, d, now, env);
    } else {
      RunKeeps(k, states, steps, i - 1);
      StepKeeps(k, states[i - 1], steps[i - 1]);
      assert states[i] == Next(k, states[i - 1], steps[i - 1]);
    }
  }

  // ---- The guarantees ----------------------------------------------------------------------------------

  /** Durable states a power cut may leave during step i of a run. */
  predicate Reached(k: Kit, states: seq<Device>, steps: seq<Step>, i: nat, d: Durable)
  {
    i < |states| == |steps| + 1 && Proper(states[i]) &&
    (d == states[i].d || (i < |steps| && d in Exec(k, states[i], steps[i].op).1))
  }

  lemma ReachedIsSafe(k: Kit, states: seq<Device>, steps: seq<Step>, i: nat, d: Durable)
    requires Run(k, states, steps) && Reached(k, states, steps, i, d)
    ensures Inv(k, states[i]) && GoodCut(k, states[i], d)
  {
    hide Inv, GoodCut, Exec, Next, Enabled, Factory, PowerOn;
    RunKeeps(k, states, steps, i);
    CutHere(k, states[i]);
    if i < |steps| {
      assert StepEnabled(k, states[i], steps[i]);
      ExecKeeps(k, states[i], steps[i].op);
    }
  }

  /** Boot-slot integrity: wherever power is cut, the slot the next resets boot holds a baseline image or one that
      arrived complete under an accepted signature; the running slot is never written, nor the other one while the
      running image is on trial. */
  lemma BootSlotIntegrity(k: Kit, states: seq<Device>, steps: seq<Step>, i: nat, d: Durable)
    requires Run(k, states, steps) && Reached(k, states, steps, i, d)
    ensures BootSafe(k, d) && Good(k, Booted(d).0.slots[Booted(d).1])
    ensures d.slots[states[i].running] == states[i].d.slots[states[i].running]
    ensures states[i].d.image == OnTrial ==> d.slots == states[i].d.slots
    ensures Good(k, states[i].d.slots[states[i].running])
  {
    hide HistoryOk, Good, ContextTracked, SelectionKept, Run, UpdaterInv, Exec;
    ReachedIsSafe(k, states, steps, i, d);
  }

  /** The attempt fence over a whole run, and no self-confirmed legacy push. */
  lemma AttemptFence(k: Kit, states: seq<Device>, steps: seq<Step>, i: nat, d: Durable)
    requires Run(k, states, steps) && Reached(k, states, steps, i, d)
    ensures Fence(d.history) && ContextFirst(d.history) && AttemptsRise(d.history) && NoSelfConfirm(d.history)
    ensures states[i].d.history <= d.history
  {
    hide Fence, ContextFirst, AttemptsRise, NoSelfConfirm, BootSafe, ContextTracked, SelectionKept, Run, UpdaterInv,
        Exec;
    ReachedIsSafe(k, states, steps, i, d);
  }

  /** A pending image runs under exactly the origin it was selected with. */
  lemma OriginSurvivesReboot(k: Kit, states: seq<Device>, steps: seq<Step>, i: nat)
    requires Run(k, states, steps) && i < |states|
    requires states[i].begun && states[i].rt.pending && !states[i].rt.fatal
    ensures LastSelected(states[i].d.history).Some?
    ensures states[i].rt.origin == LastSelected(states[i].d.history).value.origin
  {
    hide BootSafe, ContextTracked, HistoryOk, BootOrigin, ReadJournal, LastSelected, Run, UpdaterInv;
    RunKeeps(k, states, steps, i);
  }

  /** Marking an image valid, by poll or by confirmation, needs the journal to name the release that is running, and
      the journal is the one written when this image was selected. */
  lemma MarkedIsSelected(k: Kit, states: seq<Device>, steps: seq<Step>, i: nat, d: Durable, byPoll: bool)
    requires Run(k, states, steps) && Reached(k, states, steps, i, d)
    requires d.history == states[i].d.history + [MarkedValid(byPoll)] && i < |steps|
    requires steps[i].op.DoPoll? || steps[i].op.DoConfirm?
    ensures states[i].d.image == OnTrial
    ensures LastSelected(states[i].d.history).Some?
    ensures var a := LastSelected(states[i].d.history).value;
            Matches(k, Id(k, states[i]), a.manifest.Legacy()) && a.transaction == states[i].rt.transaction &&
            (byPoll ==> a.origin != LegacyPush)
  {
    hide Run, DurableInv, UpdaterInv, BootInv, ReadJournal, BootOrigin, Matches, LastSelected;
    RunKeeps(k, states, steps, i);
    var s := states[i];
    MarkNeedsJournal(k, s, steps[i].op, d, byPoll);
    TrialIsSelected(k, s);
  }

  lemma MarkNeedsJournal(k: Kit, s: Device, op: Op, d: Durable, byPoll: bool)
    requires Shaped(s) && RuntimeInv(s) && (op.DoPoll? || op.DoConfirm?) && Proper(s)
    requires d == s.d || d in Exec(k, s, op).1
    requires d.history == s.d.history + [MarkedValid(byPoll)]
    ensures s.begun && s.rt.pending && !s.rt.fatal && Matches(k, Id(k, s), s.rt.expected)
    ensures byPoll ==> s.rt.origin != LegacyPush
  {
    hide Matches, ReadJournal, BootOrigin;
    assert |d.history| > |s.d.history|;
    assert d.history[|s.d.history|] == MarkedValid(byPoll);
  }

  lemma TrialIsSelected(k: Kit, s: Device)
    requires Inv(k, s) && s.begun && s.rt.pending && !s.rt.fatal
    ensures s.d.image == OnTrial && LastSelected(s.d.history).Some?
    ensures var a := LastSelected(s.d.history).value;
            s.rt.expected == a.manifest.Legacy() && s.rt.transaction == a.transaction && s.rt.origin == a.origin
  {
    hide BootSafe, ContextTracked, HistoryOk, BootOrigin, ReadJournal, LastSelected, UpdaterInv;
  }

  /** A token opens a transfer for 30 s after prepare, in true time as long as the clock has not wrapped since. */
  lemma StartInTime(k: Kit, s: Device, token: seq<byte>, size: nat, prepared: nat, t: nat, env: StartEnv)
    requires Shaped(s) && s.u.phase == Prepared && s.u.started == Millis(prepared)
    requires prepared <= t < prepared + 0x1_0000_0000
    ensures StartRun(k, s, token, size, Millis(t), env).0.u.phase == Receiving ==> t - prepared < 30000
  {
    hide Authorize, OtaSpec.Begin, ValidToken, Millis, Elapsed;
    ElapsedIsSound(t, prepared, PREPARE_MS);
  }

  /** A transfer takes bytes for 120 s after its start, and no later than 8 s after the last ones. */
  lemma ChunkInTime(k: Kit, s: Device, bytes: seq<byte>, started: nat, progress: nat, t: nat, env: ChunkEnv)
    requires Proper(s) && s.u.phase == Receiving && s.u.started == Millis(started) && s.u.progress == Millis(progress)
    requires started <= progress <= t < started + 0x1_0000_0000
    ensures var r := ChunkRun(k, s, bytes, Millis(t), env).0;
            r.u.phase != Failed ==> t - started < 120000 && t - progress < 8000
  {
    hide Write, CompleteRun, ValidToken, Millis, Elapsed;
    ElapsedIsSound(t, started, TRANSFER_MS);
    ElapsedIsSound(t, progress, IDLE_MS);
  }

  // ---- Other records -------------------------------------------------------------------------------------------

  ghost predicate OtaOnlyRun(s: Device, r: (Device, seq<Durable>)) {
    OtaOnly(s.d.nvs, r.0.d.nvs) && forall d | d in r.1 :: OtaOnly(s.d.nvs, d.nvs)
  }

  lemma StartTouchesOtaOnly(k: Kit, s: Device, token: seq<byte>, size: nat, now: u32, env: StartEnv)
    requires Shaped(s)
    ensures OtaOnlyRun(s, StartRun(k, s, token, size, now, env))
  {
    hide Authorize, OtaSpec.Begin, OtaSpec.Start, ValidToken, Elapsed;
    var t := Ticked(s, now);
    if StartRefused(t.u, token, size).None? {
      var a := AttemptOf(t.u);
      var (w1, d1, _) := Authorize(t.w, t.d, a, env);
      AuthorizeTouchesContext(t.w, t.d, a, env);
      FlashTouchesNothing(w1, d1, s.running, k, a, env);
    }
  }

  lemma AuthorizeTouchesContext(w: Writer, d: Durable, a: Attempt, env: StartEnv)
    requires ValidToken(a.transaction)
    ensures OtaOnly(d.nvs, Authorize(w, d, a, env).1.nvs) && Authorize(w, d, a, env).1.slots == d.slots
  {
    hide EncodeContext, Available, Noted, ValidToken, ReadContext;
  }

  lemma FlashTouchesNothing(w: Writer, d: Durable, running: nat, k: Kit, a: Attempt, env: StartEnv)
    requires running < 2 && |d.slots| == 2
    ensures OtaSpec.Begin(w, d, running, k, a, env).1.nvs == d.nvs
  {
    hide Available, Noted, ReadContext;
  }

  lemma ChunkTouchesOtaOnly(k: Kit, s: Device, bytes: seq<byte>, now: u32, env: ChunkEnv)
    requires Proper(s)
    ensures OtaOnlyRun(s, ChunkRun(k, s, bytes, now, env))
  {
    hide CompleteRun, Elapsed, ValidToken;
    var t := Ticked(s, now);
    assert t.d == s.d;
    if t.u.phase == Receiving && ChunkFits(t.u, |bytes|) {
      var (w, d, wrote) := Write(t.w, t.d, s.running, bytes, env);
      var next := t.(u := Progressed(t.u, |bytes|, now), w := w, d := d);
      assert d.nvs == s.d.nvs;
      if wrote && next.u.received == next.u.manifest.imageSize { CompleteTouchesOtaOnly(k, next, env); }
    }
  }

  lemma CompleteTouchesOtaOnly(k: Kit, s: Device, env: ChunkEnv)
    requires Shaped(s) && ValidToken(s.u.token)
    ensures OtaOnlyRun(s, CompleteRun(k, s, env))
  {
    hide EncodeJournal, MaySelect, ValidToken;
  }

  /** Outside transfers the update code leaves every record alone. */
  lemma RuntimeTouchesNothing(k: Kit, s: Device, op: Op)
    requires Proper(s) && (op.DoPoll? || op.DoConfirm? || op.DoBegin? || op.DoTick? || op.DoInterrupt? ||
             op.DoWatchdogFault? || op.DoPrepare?)
    ensures Exec(k, s, op).0.d.nvs == s.d.nvs && forall d | d in Exec(k, s, op).1 :: d.nvs == s.d.nvs
  {
    hide PrepareTicked, MayConfirm, BeginRuntime, Poll, ValidToken;
    if op.DoPrepare? { PrepareIsLocal(k, s, op.bytes, op.token, op.origin, op.now, op.fault); }
  }
}
