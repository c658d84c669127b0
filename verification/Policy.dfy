/** The automatic-update switch: an eight-byte record, off unless a stored record says on. */
module Policy {
  import opened Bytes
  import opened Hardware

  const POLICY_BYTES := 8

  function Encoded(enabled: bool): seq<byte> {
    [0x47, 0x48, 0x41, 1, if enabled then 1 else 0, if enabled then 0xfe else 0xff, 0x6d, 0xa3] // "GHA" 1 v ~v 6d a3
  }

  /** What load concludes from a read: the switch, and whether the record can be trusted. */
  function Decode(r: ReadResult): (bool, bool) {
    if r == Missing || r == Blob(Encoded(false)) then (false, true)
    else if r == Blob(Encoded(true)) then (true, true)
    else (false, false)
  }

  /** The switch a boot without read errors finds. */
  function Stored(nvs: Blobs): bool {
    Decode(StoredAt(nvs, GhAuto, POLICY_BYTES)).0
  }

  /** On is only what is stored as on, byte for byte; off is trusted if nothing is stored or off is. */
  lemma DecodesExactly(nvs: Blobs)
    ensures Stored(nvs) <==> GhAuto in nvs && nvs[GhAuto] == [0x47, 0x48, 0x41, 1, 1, 0xfe, 0x6d, 0xa3]
    ensures Decode(StoredAt(nvs, GhAuto, 8)).1 <==>
              GhAuto !in nvs || nvs[GhAuto] == [0x47, 0x48, 0x41, 1, 0, 0xff, 0x6d, 0xa3] || Stored(nvs)
    ensures Decode(ReadError) == (false, false)
  {
    assert Encoded(true)[4] != Encoded(false)[4];
  }

  /** What the memory may say about a record: a trusted switch is the stored one, and on is only said if trusted. */
  predicate Honest(nvs: Blobs, enabled: bool, healthy: bool) {
    && (healthy ==> Decode(StoredAt(nvs, GhAuto, POLICY_BYTES)) == (enabled, true))
    && (enabled ==> healthy)
  }

  lemma Untrusted(nvs: Blobs)
    ensures Honest(nvs, false, false)
  {
  }

  class AutomaticPolicy {
    const board: Board
    var enabled: bool
    var healthy: bool

    constructor (board: Board)
      ensures this.board == board && !enabled && !healthy
    {
      this.board := board;
      enabled, healthy := false, false;
    }

    /** A read error leaves the switch off and untrusted. */
    method Load() returns (ghost r: ReadResult)
      modifies this
      ensures r == StoredAt(board.d.nvs, GhAuto, POLICY_BYTES) || (r == ReadError && !board.sound)
      ensures (enabled, healthy) == Decode(r)
      ensures Honest(board.d.nvs, enabled, healthy)
    {
      enabled := false;
      var bytes := board.Read(GhAuto, POLICY_BYTES);
      r := bytes;
      healthy := bytes == Missing;
      var value := 0;
      while bytes.Blob? && |bytes.bytes| == POLICY_BYTES && value < 2 && !healthy
        invariant value <= 2 && r == bytes && (bytes == Missing ==> healthy)
        invariant if healthy then Decode(r) == (enabled, true) else !enabled
        invariant !healthy && value > 0 ==> bytes != Blob(Encoded(false))
        invariant !healthy && value > 1 ==> bytes != Blob(Encoded(true))
      {
        if bytes.bytes == Encoded(value != 0) { healthy, enabled := true, value != 0; }
        value := value + 1;
      }
    }

    /** A change is claimed only after the record read back; a failure leaves the old record or the new one. */
    method Save(wanted: bool) returns (ok: bool)
      requires Honest(board.d.nvs, enabled, healthy)
      modifies this, board
      ensures ok ==> enabled == wanted && healthy && Stored(board.d.nvs) == wanted
      ensures !ok ==> !enabled && !healthy && !board.sound
      ensures Honest(board.d.nvs, enabled, healthy)
      ensures board.d.nvs == old(board.d.nvs) || board.d.nvs == old(board.d.nvs)[GhAuto := Encoded(wanted)]
      ensures board.d == old(board.d).(nvs := board.d.nvs)
      ensures board.log == old(board.log) || board.log == old(board.log) + [board.d]
      ensures board.log == old(board.log) ==> board.d == old(board.d)
    {
      if healthy && enabled == wanted { return true; }
      var bytes := Encoded(wanted);
      healthy, enabled := false, false;
      ok := board.Write(GhAuto, bytes);
      if ok {
        var verify := board.Read(GhAuto, POLICY_BYTES);
        ok := verify == Blob(bytes);
      }
      if ok { healthy, enabled := true, wanted; }
    }
  }

  /** Other records do not matter to the switch. */
  lemma SwitchStays(a: Blobs, b: Blobs, enabled: bool, healthy: bool)
    requires Honest(a, enabled, healthy)
    requires (GhAuto in a <==> GhAuto in b) && (GhAuto in a ==> a[GhAuto] == b[GhAuto])
    ensures Honest(b, enabled, healthy)
  {
  }
}
