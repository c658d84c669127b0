/** What survives a reset: NVS blobs, two application slots, the boot pointer. Every operation may fail;
    a power cut may follow any of them. */
module Hardware {
  import opened Bytes
  import opened Manifest

  datatype Key = CfgA | CfgB | ActiveRef | TrialRef | ResetMark | GhAuto | Enroll | Ota | OtaContext

  type Blobs = map<Key, seq<byte>>

  datatype ReadResult = Missing | Blob(bytes: seq<byte>) | ReadError

  /** nvs_get_blob into a buffer of the given capacity. */
  function StoredAt(nvs: Blobs, key: Key, capacity: nat): ReadResult {
    if key !in nvs then Missing
    else if 0 < |nvs[key]| <= capacity then Blob(nvs[key])
    else ReadError
  }

  /** A write or erase takes effect or does not, and may report failure either way; a reported success is durable. */
  predicate WriteOutcome(before: Blobs, after: Blobs, key: Key, data: seq<byte>, ok: bool) {
    after == before[key := data] || (after == before && !ok)
  }

  predicate EraseOutcome(before: Blobs, after: Blobs, key: Key, ok: bool) {
    after == before - {key} || (after == before && !ok)
  }

  /** State of the image the boot pointer names: confirmed, selected but not yet booted, or on trial. */
  datatype ImageState = Confirmed | Selected | OnTrial

  /** One attempt as the updater hands it to the writer. */
  datatype Attempt = Attempt(manifest: Manifest, transaction: seq<byte>, origin: Origin)

  /** What the device was made to do, in order; kept for stating properties only. */
  datatype Event =
    | ContextDurable(context: Context)
    | FlashBegun(attempt: Attempt)
    | BootSelected(attempt: Attempt)
    | MarkedValid(byPoll: bool)

  datatype Durable = Durable(nvs: Blobs, slots: seq<seq<byte>>, boot: nat, image: ImageState, history: seq<Event>)

  /** The board's storage, with its faults; a sound board has none. log lists every durable state the board has been
      in, the present one last; it exists to speak about power cuts. */
  class Board {
    const sound: bool
    var d: Durable
    ghost var log: seq<Durable>

    constructor (d: Durable, sound: bool)
      ensures this.d == d && log == [d] && this.sound == sound
    {
      this.d, this.sound := d, sound;
      log := [d];
    }

    /** Whether a call works: always, on a sound board. */
    method Works() returns (ok: bool)
      ensures sound ==> ok
    {
      ok := *;
      ok := ok || sound;
    }

    method Read(key: Key, capacity: nat) returns (r: ReadResult)
      ensures r == StoredAt(d.nvs, key, capacity) || r == ReadError
      ensures sound ==> r == StoredAt(d.nvs, key, capacity)
    {
      r := if key !in d.nvs then Missing
           else if 0 < |d.nvs[key]| <= capacity then Blob(d.nvs[key])
           else ReadError;
      var works := Works();
      if !works { r := ReadError; }
    }

    method Write(key: Key, data: seq<byte>) returns (ok: bool)
      modifies this
      ensures d == old(d).(nvs := d.nvs) && WriteOutcome(old(d.nvs), d.nvs, key, data, ok) && (sound ==> ok)
      ensures log == old(log) + [d]
    {
      ok := Works();
      var effective: bool := *;
      if ok || effective { d := d.(nvs := d.nvs[key := data]); }
      log := log + [d];
    }

    method Erase(key: Key) returns (ok: bool)
      modifies this
      ensures d == old(d).(nvs := d.nvs) && EraseOutcome(old(d.nvs), d.nvs, key, ok) && (sound ==> ok)
      ensures log == old(log) + [d]
    {
      ok := Works();
      var effective: bool := *;
      if ok || effective { d := d.(nvs := d.nvs - {key}); }
      log := log + [d];
    }
  }
}
