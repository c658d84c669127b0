/** The worker task's code, run against a main loop that may interfere between any two of its actions. */
module Worker {
  import opened Bytes
  import opened OtaSpec
  import opened OtaRuns
  import opened Protocol
  import opened ProtocolSafety
  import opened Delivery
  import Chunked
  import Pull

  predicate LoopStep(step: Protocol.Step) {
    step.StartJob? || step.JobTimeout? || step.TakeMessage? || step.Loop?
  }

  /** What the worker finds after the main loop has run for a while. */
  ghost predicate Interfered(k: Kit, s: State, t: State) {
    exists steps: seq<Protocol.Step> ::
      (forall i | 0 <= i < |steps| :: LoopStep(steps[i])) && Pull.Follows(k, s, steps, t)
  }

  /** The loop does not touch what the worker owns; while the worker is between two messages it does not even reply. */
  lemma {:induction false} LoopLeavesWorker(k: Kit, s: State, steps: seq<Protocol.Step>, t: State)
    requires (forall i | 0 <= i < |steps| :: LoopStep(steps[i])) && Pull.Follows(k, s, steps, t)
    ensures t.pc == s.pc && t.job == s.job && t.exchanges == s.exchanges
    ensures s.busy && s.messages == [] ==> t.busy && t.messages == [] && t.acks == s.acks
    decreases |steps|
  {
    hide Sound, Handle, Exec, InterruptOwn, OtaRuns.Enabled, CanUpdate;
    if |steps| > 0 {
      assert LoopStep(steps[0]);
      LoopLeavesWorker(k, Protocol.Next(k, s, steps[0]), steps[1..], t);
    }
  }

  datatype Code = Updated | Rejected | Cancelled | NetworkFailed | BadMetadata | NotNeeded

  /** The connection and the job's resources: each answer may be the last. died records that one was negative: the
      connection ended, memory ran out, the job was cancelled, or a time limit passed. */
  class Link {
    var patience: nat
    ghost var delivered: seq<byte>
    ghost var died: bool

    constructor (patience: nat)
      ensures delivered == [] && !died
    {
      this.patience := patience;
      delivered, died := [], false;
    }

    /** rawByte. */
    method NextByte() returns (b: Option<byte>)
      modifies this
      ensures b.None? ==> died && delivered == old(delivered)
      ensures b.Some? ==> died == old(died) && delivered == old(delivered) + [b.value] && patience < old(patience)
    {
      b := *;
      if patience == 0 { b := None; }
      if b.Some? {
        patience := patience - 1;
        delivered := delivered + [b.value];
      } else {
        died := true;
      }
    }

    /** alive, and the exchange's own time limit. */
    method Alive() returns (ok: bool)
      modifies this
      ensures delivered == old(delivered)
      ensures if ok then died == old(died) && patience < old(patience) else died
    {
      ok := *;
      if patience == 0 { ok := false; }
      if ok { patience := patience - 1; } else { died := true; }
    }
  }

  /** The worker's own state; system stands for both tasks and their queues at this moment. */
  class Task {
    const kit: Kit
    const link: Link
    var sequence: u32
    var system: State
    /** The messages of this download so far, and whether one was answered no. */
    ghost var posted: seq<Message>
    ghost var refused: bool

    ghost predicate Valid()
      reads this`system, this`sequence
    {
      ProtocolSafety.Inv(kit, system) && Sound(system) && sequence == Wire(system.exchanges)
    }

    constructor (kit: Kit, link: Link, system: State)
      requires ProtocolSafety.Inv(kit, system) && Sound(system) && system.exchanges == 0
      ensures Valid() && this.kit == kit && this.link == link && this.system == system
    {
      this.kit, this.link, this.system, sequence := kit, link, system, 0;
      posted, refused := [], false;
    }

    /** The other task runs: callers know only what any of its runs keeps. */
    method Yield()
      requires Valid()
      modifies this`system
      ensures Valid() && system.pc == old(system.pc) && system.job == old(system.job) &&
          system.exchanges == old(system.exchanges)
      ensures system.pc == Checking || system.pc == Fetching ==> system.acks == old(system.acks)
      ensures Interfered(kit, old(system), system)
    {
      Pull.NoSteps(kit, system);
    }

    /** One atomic action of this task. */
    method Act(step: Protocol.Step)
      requires Valid() && Protocol.Enabled(kit, system, step) && !LoopStep(step) && !step.Exchange?
      modifies this`system
      ensures Valid() && system == Protocol.Next(kit, old(system), step) && system.exchanges == old(system.exchanges)
      ensures !step.ReceiveAck? ==> system.acks == old(system.acks)
    {
      hide ProtocolSafety.Inv, Sound, Protocol.Enabled;
      NextKeeps(kit, system, step);
      ghost var before := system;
      system := Protocol.Next(kit, system, step);
      SameExchanges(kit, before, step);
    }

    /** The job ends here. */
    method Quit()
      requires Valid() && (system.pc == Checking || system.pc == Fetching || system.pc == Awaiting)
      modifies this`system
      ensures Valid() && system == old(system).(pc := Finishing)
    {
      hide Task.Valid, ProtocolSafety.Inv, Sound;
      Act(GiveUp);
    }

    lemma Reading()
      requires Valid() && system.pc == Fetching
      ensures system.job.Some? && JobInv(system.job.value)
      ensures system.job.value.posted == system.job.value.acked <= |system.job.value.payload|
    {
      hide ProtocolSafety.Inv, Sound, Chunked.FeedAll;
      ReadingJob(kit, system);
    }

    /** The decoder object holds what the shared state says. */
    ghost predicate Reads(body: Chunked.Body)
      reads this, body, body.line
    {
      body.Valid() && system.job.Some? && body.Abstract() == system.job.value.body
    }

    /** What has arrived is what the decoder has read. */
    ghost predicate Current()
      reads this, link
    {
      system.job.Some? && system.job.value.raw == link.delivered
    }

    /** Why a download may stop: something died, a message was refused, or nothing can complete the response. */
    ghost predicate Excused(head: Chunked.Head, size: u32)
      reads this, link
    {
      link.died || refused || Hopeless(head, size, link.delivered)
    }

    /** rawByte and feed for one byte; false when the connection, the job or the decoder ends it. */
    method NextByte(body: Chunked.Body) returns (ok: bool, payload: bool, b: byte)
      requires Valid() && system.pc == Fetching && Reads(body) && MayRead(system.job.value) && Current()
      modifies this`system, link, body, body.line
      ensures Valid()
      ensures !ok ==> system.pc == Finishing && Excused(old(system.job.value.head), old(system.job.value.size))
      ensures system.exchanges == old(system.exchanges) && system.acks == old(system.acks)
      ensures ok ==> link.patience < old(link.patience)
      ensures system.job.Some? && SameTask(old(system.job.value), system.job.value)
      ensures ok ==>
                var j := old(system.job.value);
                system.pc == Fetching && Reads(body) && Current() && (payload ==> |j.payload| < j.acked + Wanted(j)) &&
                system.job.value == j.(raw := j.raw + [b], body := body.Abstract(),
                    payload := if payload then j.payload + [b] else j.payload)
    {
      hide ProtocolSafety.Inv, Sound, MayRead, Wanted, Chunked.Feed, Handle, Exec, InterruptOwn, Take, Hopeless;
      Yield();
      ghost var j := system.job.value;
      ReadingJob(kit, system);
      var arrived := link.NextByte();
      ok, payload, b := false, false, 0;
      if arrived.None? {
        Quit();
        return;
      }
      b := arrived.value;
      ok, payload := body.FeedByte(b);
      if !ok { RefusedIsHopeless(j, b); }
      if |j.payload| >= j.acked + Wanted(j) {
        OverfullIsFull(j);
        FullRefusesPayload(j, b);
      }
      Act(ReadByte(b));
    }

    /** bodyBytes into the message buffer: None when it failed or the body ended short. */
    method FillBuffer(body: Chunked.Body, wanted: nat) returns (bytes: Option<seq<byte>>)
      requires Valid() && system.pc == Fetching && Reads(body) && Current()
      requires var j := system.job.value; |j.payload| == j.acked && wanted == Wanted(j)
      modifies this`system, link, body, body.line
      ensures Valid() && system.job.Some? && SameTask(old(system.job.value), system.job.value)
      ensures bytes.None? ==> system.pc == Finishing && system.job.value.posted == old(system.job.value.posted)
      ensures bytes.None? && old(system.job.value.size) >= HEADER_BYTES ==>
                Excused(old(system.job.value.head), old(system.job.value.size))
      ensures system.exchanges == old(system.exchanges) && system.acks == old(system.acks)
      ensures bytes.Some? ==>
                system.pc == Fetching && Reads(body) && Current() && |bytes.value| == wanted &&
                system.job.value.payload == old(system.job.value.payload) + bytes.value
    {
      hide ProtocolSafety.Inv, Sound, Wanted, Chunked.Feed, Hopeless;
      ghost var before := system.job.value;
      var buffer: seq<byte> := [];
      while |buffer| < wanted && !body.done
        invariant Valid() && system.pc == Fetching && Reads(body) && Current()
        invariant system.exchanges == old(system.exchanges) && system.acks == old(system.acks)
        invariant |buffer| <= wanted && system.job.value.payload == before.payload + buffer &&
            SameTask(before, system.job.value)
        decreases link.patience
      {
        assert Wanted(system.job.value) == wanted by { SameWanted(before, system.job.value); }
        var ok, payload, b := NextByte(body);
        if !ok { return None; }
        if payload { buffer := buffer + [b]; }
      }
      if |buffer| < wanted {
        ReadingJob(kit, system);
        if before.size >= HEADER_BYTES {
          WantedFits(kit, system);
          SameWanted(before, system.job.value);
          ShortIsHopeless(system.job.value);
        }
        Quit();
        return None;
      }
      return Some(buffer);
    }

    /** bodyBytes for one byte more before the last message: framing only, to the end of the body. */
    method CloseBody(body: Chunked.Body) returns (ok: bool)
      requires Valid() && system.pc == Fetching && Reads(body) && Current()
      requires var j := system.job.value;
               |j.payload| == j.acked + Wanted(j) && 0 < j.acked && j.acked + Wanted(j) == j.size
      modifies this`system, link, body, body.line
      ensures Valid() && system.job.Some? && SameTask(old(system.job.value), system.job.value)
      ensures !ok ==> system.pc == Finishing && Excused(old(system.job.value.head), old(system.job.value.size))
      ensures system.exchanges == old(system.exchanges) && system.acks == old(system.acks)
      ensures ok ==> system.pc == Fetching && Reads(body) && Current() && system.job.value.body.done
      ensures ok ==> system.job.value.payload == old(system.job.value.payload)
    {
      hide ProtocolSafety.Inv, Sound, Wanted, Chunked.Feed, Hopeless;
      ghost var before := system.job.value;
      while !body.done
        invariant Valid() && system.pc == Fetching && Reads(body) && Current()
        invariant system.exchanges == old(system.exchanges) && system.acks == old(system.acks)
        invariant SameTask(before, system.job.value) && system.job.value.payload == before.payload
        decreases link.patience
      {
        SameWanted(before, system.job.value);
        var okByte, payload, b := NextByte(body);
        if !okByte || payload { return false; }
      }
      return true;
    }

    /** exchange: one message out, its acknowledgement or the end of the job back. */
    method ExchangeBuffer() returns (accepted: bool)
      requires Valid() && system.pc == Fetching && system.job.Some? && Filled(system.job.value)
      requires FreshNumber(system)
      modifies this, link
      ensures Valid() && link.delivered == old(link.delivered) && system.job.Some?
      ensures !accepted ==> system.pc == Finishing && (link.died || refused)
      ensures !accepted ==> system.job.value == old(system.job.value).(posted := system.job.value.posted)
      ensures accepted ==>
                system.acks == [] &&
                var j, before := system.job.value, old(system.job.value);
                j == before.(posted := |before.payload|, acked := |before.payload|) &&
                system.pc == (if j.acked >= j.size then Finishing else Fetching)
      ensures Sent(old(posted), old(system.job.value), old(system.exchanges), accepted)
    {
      hide Task.Valid, Filled, Outgoing, FreshNumber, Interfered, JobInv;
      Reading();
      var alive := link.Alive();
      Send(alive);
      if !alive { return false; }
      while true
        invariant Valid() && link.delivered == old(link.delivered)
        invariant system.pc == Awaiting &&
            system.job == Some(old(system.job.value).(posted := |old(system.job.value.payload)|))
        invariant posted == old(posted) + [Outgoing(old(system.job.value), Wire(old(system.exchanges) + 1))]
        invariant system.exchanges == old(system.exchanges) + 1
        decreases link.patience
      {
        alive := link.Alive();
        if !alive {
          Quit();
          return false;
        }
        Yield();
        var over: bool;
        accepted, over := Poll();
        if accepted { return true; }
        if over { return false; }
      }
    }

    /** An exchange counts, and what it posted is the buffer; nothing is posted if it could not be. */
    ghost predicate Sent(before: seq<Message>, j: Job, exchanges: nat, accepted: bool)
      requires j.acked <= |j.payload|
      reads this
    {
      && system.exchanges == exchanges + 1
      && (posted == before + [Outgoing(j, Wire(exchanges + 1))] || (posted == before && !accepted))
      && (system.job.Some? ==> system.job.value.posted == if posted == before then j.posted else |j.payload|)
    }

    /** Numbers the message and queues it: the queue is empty, so it always fits. */
    method Send(alive: bool)
      requires Valid() && system.pc == Fetching && system.job.Some? && Filled(system.job.value)
      requires FreshNumber(system)
      modifies this
      ensures Valid() && system.exchanges == old(system.exchanges) + 1 && refused == old(refused)
      ensures if alive then system.pc == Awaiting &&
          system.job == Some(old(system.job.value).(posted := |old(system.job.value.payload)|))
              else system.pc == Finishing && system.job == old(system.job)
      ensures posted == if alive then old(posted) + [Outgoing(old(system.job.value), Wire(old(system.exchanges) + 1))]
                        else old(posted)
    {
      hide OtaRuns.Inv, WorkerInv, TransferInv, SelectedInv, LoopInv, Filled, Outgoing;
      NextKeeps(kit, system, Exchange(alive));
      ghost var message := Outgoing(system.job.value, Wire(system.exchanges + 1));
      system := Protocol.Next(kit, system, Exchange(alive));
      sequence := (sequence + 1) % 0x1_0000_0000;
      if alive { posted := posted + [message]; }
    }

    /** One look at the acknowledgement queue; a stale number is dropped. */
    method Poll() returns (accepted: bool, over: bool)
      requires Valid() && system.pc == Awaiting
      modifies this`system, this`refused
      ensures Valid() && (accepted ==> system.acks == [])
      ensures system.exchanges == old(system.exchanges) && (over ==> refused)
      ensures !accepted && !over ==> system.pc == Awaiting && system.job == old(system.job)
      ensures !accepted && over ==> system.pc == Finishing && system.job == old(system.job)
      ensures accepted ==>
                old(system.job).Some? &&
                var j := old(system.job.value).(acked := old(system.job.value.posted));
                system.job == Some(j) && system.pc == (if j.acked >= j.size then Finishing else Fetching)
      ensures |old(system.acks)| > 0 && old(system.acks[0].sequence) == Wire(old(system.exchanges)) ==>
                (if old(system.acks[0].accepted) then accepted else over)
    {
      hide OtaRuns.Inv, TransferInv, SelectedInv, LoopInv, JobInv, Handle, Exec, InterruptOwn, Take;
      if |system.acks| == 0 { return false, false; }
      var ack := system.acks[0];
      Act(ReceiveAck);
      if ack.sequence != sequence { return false, false; }
      if !ack.accepted { refused := true; }
      return ack.accepted, !ack.accepted;
    }

    /** The messages of this download are the slices of the payload that was posted, numbered on from first. */
    ghost predicate Posting(first: nat)
      reads this
    {
      && system.job.Some?
      && var j := system.job.value;
         j.posted <= |j.payload| && SentAs(posted, j.version, j.size, first, j.payload[..j.posted])
    }

    /** download, once the response head is accepted. It succeeds exactly if the whole release was acknowledged, and it
        fails only if something died, a message was refused, or what arrived cannot become the announced release. In any
        case what was posted are the first slices of the payload. */
    method Download(version: u32, size: u32, head: Chunked.Head) returns (code: Code)
      requires Valid() && system.pc == Checking && Announces(head, size) && link.delivered == []
      requires FreshNumber(system)
      modifies this, link
      ensures Valid() && system.pc == Finishing && system.job.Some?
      ensures var j := system.job.value; (j.version, j.size, j.head) == (version, size, head)
      ensures code == Updated <==> 0 < system.job.value.acked == size
      ensures code != Updated && size >= HEADER_BYTES ==> Excused(head, size)
      ensures Posting(old(system.exchanges) + 1)
      ensures code == Updated ==> system.job.value.posted == |system.job.value.payload| == size
      ensures code == Updated && size > HEADER_BYTES ==> Whole(head, size, link.delivered)
    {
      hide Task.Valid, Filled, Chunked.Feed, Hopeless, SentAs, Slices, Whole, Interfered, Announces;
      OpenDownload(version, size, head);
      NothingSent(version, size, system.exchanges + 1);
      var body := new Chunked.Body(head, size);
      var header := FillBuffer(body, HEADER_BYTES);
      if header.None? { return NetworkFailed; }
      ghost var j := system.job.value;
      HeaderFills();
      HeaderSent(posted, j, system.exchanges);
      var ok := ExchangeBuffer();
      if !ok { return Rejected; }
      code := DownloadImage(body, size, old(system.exchanges) + 1);
      if code == Updated && size > HEADER_BYTES { Completed(); }
    }

    method OpenDownload(version: u32, size: u32, head: Chunked.Head)
      requires Valid() && system.pc == Checking && Announces(head, size) && FreshNumber(system)
      modifies this
      ensures Valid() && system.pc == Fetching && system.job == Some(NewJob(version, size, head))
      ensures system.exchanges == old(system.exchanges) && FreshNumber(system) && posted == [] && !refused
    {
      hide Task.Valid, Chunked.Start;
      Act(OpenBody(version, size, head));
      posted, refused := [], false;
    }

    lemma HeaderFills()
      requires Valid() && system.pc == Fetching && system.job.Some?
      requires var j := system.job.value; j.acked == 0 && |j.payload| == HEADER_BYTES
      ensures Filled(system.job.value) && HEADER_BYTES <= system.job.value.size
    {
      hide ProtocolSafety.Inv, Sound, JobInv;
      Reading();
      PayloadFits(kit, system);
    }

    lemma Completed()
      requires Valid() && system.job.Some? && Current()
      requires system.job.value.body.done && |system.job.value.payload| == system.job.value.size
      ensures Whole(system.job.value.head, system.job.value.size, link.delivered)
    {
      hide ProtocolSafety.Inv, Sound, Whole;
      CompleteIsWhole(kit, system);
    }

    /** One message of the image; Updated when it was accepted. */
    method SendNext(body: Chunked.Body, wanted: nat, last: bool, ghost first: nat) returns (code: Code)
      requires Valid() && system.pc == Fetching && Reads(body) && Current() && system.acks == [] && Posting(first)
      requires var j := system.job.value;
               && HEADER_BYTES <= j.posted == j.acked == |j.payload| && wanted == Wanted(j) &&
                   (last <==> j.acked + wanted == j.size)
               && (j.acked - HEADER_BYTES) % CHUNK_MAX == 0 && system.exchanges + 1 == first + |posted|
      modifies this, link, body, body.line
      ensures Valid() && system.job.Some? && Posting(first) && (code == Updated ==> body.Valid())
      ensures var j, before := system.job.value, old(system.job.value);
              (j.version, j.size, j.head) == (before.version, before.size, before.head)
      ensures code != Updated ==>
                system.pc == Finishing && Excused(old(system.job.value.head), old(system.job.value.size)) &&
                system.job.value.acked == old(system.job.value.acked)
      ensures code == Updated ==>
                system.acks == [] && system.exchanges + 1 == first + |posted| && Current() &&
                var j, before := system.job.value, old(system.job.value);
                j.posted == j.acked == |j.payload| == before.acked + wanted && (last ==> j.body.done) &&
                system.pc == (if j.acked >= j.size then Finishing else Fetching) && (system.pc == Fetching ==>
                    Reads(body))
    {
      hide ProtocolSafety.Inv, Sound, Chunked.Feed, Hopeless, SentAs;
      ghost var before := system.job.value;
      WantedBounds(kit, system);
      var bytes := FillBuffer(body, wanted);
      if bytes.None? {
        StillPosted(posted, before, system.job.value, first);
        return NetworkFailed;
      }
      if last {
        var ok := CloseBody(body);
        if !ok {
          StillPosted(posted, before, system.job.value, first);
          return BadMetadata;
        }
      }
      assert Filled(system.job.value);
      ghost var j := system.job.value;
      StillPosted(posted, before, j, first);
      ImageSent(posted, j, first, system.exchanges);
      var accepted := ExchangeBuffer();
      return if accepted then Updated else Rejected;
    }

    /** The image, in messages of at most 1024 bytes; the last one leaves only after the body is complete. */
    method DownloadImage(body: Chunked.Body, size: u32, ghost first: nat) returns (code: Code)
      requires Valid() && body.Valid() && system.job.Some? && Posting(first) && Current()
      requires var j := system.job.value; j.size == size && HEADER_BYTES == j.posted == j.acked == |j.payload| <= size
      requires system.pc == if size == HEADER_BYTES then Finishing else Fetching
      requires system.pc == Fetching ==> Reads(body)
      requires system.acks == [] && system.exchanges + 1 == first + |posted|
      modifies this, link, body, body.line
      ensures Valid() && system.pc == Finishing && system.job.Some? && Posting(first)
      ensures var j, before := system.job.value, old(system.job.value);
              (j.version, j.size, j.head) == (before.version, before.size, before.head)
      ensures code == Updated <==> system.job.value.acked == size
      ensures code != Updated ==> Excused(old(system.job.value.head), size)
      ensures code == Updated ==> system.job.value.posted == |system.job.value.payload| == size
      ensures code == Updated && size > HEADER_BYTES ==> Current() && system.job.value.body.done
    {
      hide ProtocolSafety.Inv, Sound, Chunked.Feed, Hopeless, SentAs;
      var left := size - HEADER_BYTES;
      var alive := true;
      if left > 0 { alive := link.Alive(); }
      while left > 0 && alive
        invariant Valid() && body.Valid() && system.job.Some? && Posting(first) && Current()
        invariant var j := system.job.value;
                  && left == size - j.acked && HEADER_BYTES <= j.posted == j.acked == |j.payload| <= size
                  && (j.version, j.size, j.head) == old((system.job.value.version, system.job.value.size,
                      system.job.value.head))
                  && (left > 0 ==> (j.acked - HEADER_BYTES) % CHUNK_MAX == 0)
        invariant left > 0 ==> system.pc == Fetching && Reads(body)
        invariant left == 0 ==> system.pc == Finishing && (size > HEADER_BYTES ==> system.job.value.body.done)
        invariant system.acks == [] && system.exchanges + 1 == first + |posted| && (!alive ==> link.died)
        decreases left
      {
        var wanted := if left < CHUNK_MAX then left else CHUNK_MAX;
        code := SendNext(body, wanted, wanted == left, first);
        if code != Updated { return; }
        left := left - wanted;
        if left > 0 { alive := link.Alive(); }
      }
      if left > 0 {
        Quit();
        return Cancelled;
      }
      return Updated;
    }

    /** One job of run: the request, what the check found, the download if it found a newer release, and the result; the
        message queue always has room for it at once. */
    method RunJob(release: Option<(u32, u32, Chunked.Head)>) returns (code: Code)
      requires Valid() && system.pc == Sleeping && system.requests > 0 && FreshNumber(system) && link.delivered == []
      requires release.Some? ==> Announces(release.value.2, release.value.1)
      modifies this, link
      ensures Valid() && system.pc == Sleeping && |system.messages| > 0 &&
              system.messages[|system.messages| - 1] == Done
      ensures code == Updated ==> release.Some? && system.job.Some? && 0 < system.job.value.acked == release.value.1
      ensures release.Some? && code != Updated && release.value.1 >= HEADER_BYTES ==>
                Excused(release.value.2, release.value.1)
    {
      hide ProtocolSafety.Inv, Sound, Handle, Exec, InterruptOwn, Take, Read, ReadAck, Outgoing, Filled, Hopeless,
          SentAs, Whole;
      Act(TakeRequest);
      Yield();
      if release.Some? {
        code := Download(release.value.0, release.value.1, release.value.2);
      } else {
        Quit();
        code := NotNeeded;
      }
      Yield();
      ResultFits(kit, system);
      Act(PostDone);
    }
  }

  lemma NothingSent(version: u32, size: u32, first: nat)
    ensures SentAs([], version, size, first, [])
  {
  }

  /** What was posted before does not depend on what arrives after. */
  lemma StillPosted(posted: seq<Message>, a: Job, b: Job, first: nat)
    requires a.posted <= |a.payload| && a.posted == b.posted && a.payload <= b.payload
    requires (a.version, a.size) == (b.version, b.size)
    requires SentAs(posted, a.version, a.size, first, a.payload[..a.posted])
    ensures SentAs(posted, b.version, b.size, first, b.payload[..b.posted])
  {
    hide Slices;
    assert a.payload[..a.posted] == b.payload[..b.posted];
  }

  lemma HeaderSent(posted: seq<Message>, j: Job, exchanges: nat)
    requires posted == [] && j.acked == 0 && |j.payload| == HEADER_BYTES
    ensures SentAs(posted + [Outgoing(j, Wire(exchanges + 1))], j.version, j.size, exchanges + 1,
            j.payload[..|j.payload|])
    ensures SentAs([], j.version, j.size, exchanges + 1, j.payload[..0])
  {
    assert j.payload[..|j.payload|] == j.payload;
    SlicesGrow([], j.payload);
    assert [] + j.payload == j.payload;
  }

  lemma ImageSent(posted: seq<Message>, j: Job, first: nat, exchanges: nat)
    requires 0 < HEADER_BYTES <= j.acked < |j.payload| <= j.acked + CHUNK_MAX &&
             (j.acked - HEADER_BYTES) % CHUNK_MAX == 0
    requires SentAs(posted, j.version, j.size, first, j.payload[..j.acked]) && exchanges + 1 == first + |posted|
    ensures SentAs(posted + [Outgoing(j, Wire(exchanges + 1))], j.version, j.size, first, j.payload[..|j.payload|])
  {
    var before, piece := j.payload[..j.acked], j.payload[j.acked..];
    assert j.payload[..|j.payload|] == before + piece;
    SlicesGrow(before, piece);
    assert |Slices(before)| > 0;
  }

  /** The worker's job while it reads. */
  lemma ReadingJob(k: Kit, s: State)
    requires ProtocolSafety.Inv(k, s) && s.pc == Fetching
    ensures s.job.Some? && JobInv(s.job.value) && s.job.value.posted == s.job.value.acked
  {
    hide OtaRuns.Inv, QueueInv, TransferInv, SelectedInv, LoopInv, JobInv;
  }

  lemma OverfullIsFull(j: Job)
    requires JobInv(j) && MayRead(j) && |j.payload| >= j.acked + Wanted(j)
    ensures |j.payload| == j.size
  {
    hide Chunked.FeedAll;
  }

  lemma CompleteIsWhole(k: Kit, s: State)
    requires ProtocolSafety.Inv(k, s) && s.job.Some? && s.job.value.body.done &&
             |s.job.value.payload| == s.job.value.size
    ensures Whole(s.job.value.head, s.job.value.size, s.job.value.raw)
  {
    hide OtaRuns.Inv, QueueInv, TransferInv, SelectedInv, LoopInv, Chunked.FeedAll;
  }

  lemma WantedBounds(k: Kit, s: State)
    requires ProtocolSafety.Inv(k, s) && s.pc == Fetching && s.job.value.acked > 0
    ensures 0 < Wanted(s.job.value) <= CHUNK_MAX && HEADER_BYTES <= s.job.value.acked < s.job.value.size
  {
    hide OtaRuns.Inv, QueueInv, TransferInv, SelectedInv, LoopInv, Chunked.FeedAll;
  }

  lemma WantedFits(k: Kit, s: State)
    requires ProtocolSafety.Inv(k, s) && s.pc == Fetching && s.job.value.size >= HEADER_BYTES
    ensures s.job.value.acked + Wanted(s.job.value) <= s.job.value.size
  {
    hide OtaRuns.Inv, QueueInv, TransferInv, SelectedInv, LoopInv, Chunked.FeedAll;
  }


  lemma ResultFits(k: Kit, s: State)
    requires ProtocolSafety.Inv(k, s) && s.pc == Finishing
    ensures |s.messages| < MESSAGE_CAPACITY
  {
    hide OtaRuns.Inv, WorkerInv, TransferInv, SelectedInv, LoopInv;
  }

  lemma PayloadFits(k: Kit, s: State)
    requires ProtocolSafety.Inv(k, s) && s.job.Some?
    ensures |s.job.value.payload| <= s.job.value.size
  {
  }

  /** Reading moves the decoder and the payload only. */
  predicate SameTask(a: Job, b: Job) {
    (b.version, b.size, b.head, b.acked, b.posted) == (a.version, a.size, a.head, a.acked, a.posted) &&
    a.payload <= b.payload
  }

  lemma SameWanted(a: Job, b: Job)
    requires SameTask(a, b)
    ensures Wanted(b) == Wanted(a)
  {
  }

  lemma SameExchanges(k: Kit, s: State, step: Protocol.Step)
    requires Sound(s) && Protocol.Enabled(k, s, step) && !LoopStep(step) && !step.Exchange?
    ensures Protocol.Next(k, s, step).exchanges == s.exchanges
    ensures !step.ReceiveAck? ==> Protocol.Next(k, s, step).acks == s.acks
  {
    hide Handle, Exec, InterruptOwn, Chunked.Feed;
  }
}
