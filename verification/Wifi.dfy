/** Wi-Fi configurations, their 112-byte records and the references that point at them. */
module Wifi {
  import opened Bytes
  import Crc
  import Utf8

  const RECORD_BYTES := 112
  const REFERENCE_BYTES := 13

  /** Strings are the contents of char[33] and char[65] before the NUL. */
  datatype Fields = Fields(revision: u32, ssid: seq<byte>, password: seq<byte>) {
    predicate Fits() {
      |ssid| <= 32 && |password| <= 64 && 0 !in ssid && 0 !in password
    }
  }
  type WifiConfig = c: Fields | c.Fits() witness Fields(0, [], [])

  const BLANK: WifiConfig := Fields(0, [], [])

  function HexDigit(c: byte): Option<nat> {
    if 0x30 <= c <= 0x39 then Some(c - 0x30)
    else if 0x61 <= c <= 0x66 then Some(c - 0x61 + 10)
    else if 0x41 <= c <= 0x46 then Some(c - 0x41 + 10)
    else None
  }

  predicate PasswordChar(c: byte, length: nat) {
    0x20 <= c <= 0x7e && (length == 64 ==> HexDigit(c).Some?)
  }

  predicate ValidWifi(c: WifiConfig) {
    && 1 <= |c.ssid| <= 32
    && 8 <= |c.password| <= 64
    && Utf8.Accepts(c.ssid)
    && forall i | 0 <= i < |c.password| :: PasswordChar(c.password[i], |c.password|)
  }

  const MAGIC: seq<byte> := [0x44, 0x4d, 0x42, 0x30] // "DMB0"

  /** The 108 bytes in front of the CRC. */
  function RecordBody(c: WifiConfig): (b: seq<byte>)
    ensures |b| == 108
  {
    MAGIC + [1, 0] + Le32(c.revision) + [|c.ssid|, |c.password|] + Padded(c.ssid, 32) + Padded(c.password, 64)
  }

  function EncodeConfig(c: WifiConfig): (b: seq<byte>)
    ensures |b| == RECORD_BYTES
  {
    Crc.Seal(RecordBody(c))
  }

  /** decodeConfig with its checks in order; None is its false. */
  function DecodeConfig(b: seq<byte>): Option<WifiConfig> {
    if |b| != RECORD_BYTES || b[..4] != MAGIC || b[4] != 1 || b[5] != 0 ||
       b[10] == 0 || b[10] > 32 || b[11] > 64 || FromLe32(b[108..]) != Crc.Crc32(b[..108]) then None
    else
      var ssid, password := b[12..12 + b[10]], b[44..44 + b[11]];
      if FromLe32(b[6..10]) == 0 || 0 in ssid || 0 in password then None
      else
        var c: WifiConfig := Fields(FromLe32(b[6..10]), ssid, password);
        if ValidWifi(c) && b == EncodeConfig(c) then Some(c) else None
  }

  lemma RecordLayout(c: WifiConfig)
    ensures var b := EncodeConfig(c);
            b[..4] == MAGIC && b[4] == 1 && b[5] == 0 && b[6..10] == Le32(c.revision) &&
            b[10] == |c.ssid| && b[11] == |c.password| &&
            b[12..12 + b[10]] == c.ssid && b[44..44 + b[11]] == c.password &&
            b[..108] == RecordBody(c) && b[108..] == Le32(Crc.Crc32(RecordBody(c)))
  {
    hide Le32, Crc.Crc32, Padded;
    var body := RecordBody(c);
    BodyLayout(c);
    var b := EncodeConfig(c);
    assert b == body + Le32(Crc.Crc32(body));
    assert b[..108] == body && b[108..] == Le32(Crc.Crc32(body));
    assert forall i, j | 0 <= i <= j <= 108 :: b[i..j] == b[..108][i..j];
  }

  lemma BodyLayout(c: WifiConfig)
    ensures var b := RecordBody(c);
            b[..4] == MAGIC && b[4] == 1 && b[5] == 0 && b[6..10] == Le32(c.revision) &&
            b[10] == |c.ssid| && b[11] == |c.password| &&
            b[12..12 + |c.ssid|] == c.ssid && b[44..44 + |c.password|] == c.password
  {
    hide Le32;
    var b := RecordBody(c);
    var head := MAGIC + [1, 0] + Le32(c.revision) + [|c.ssid|, |c.password|];
    assert b == head + Padded(c.ssid, 32) + Padded(c.password, 64);
    assert b[..12] == head;
    assert b[6..10] == head[6..10] == Le32(c.revision);
    assert b[12..44] == Padded(c.ssid, 32);
    assert b[12..12 + |c.ssid|] == b[12..44][..|c.ssid|] == c.ssid;
    assert b[44..108] == Padded(c.password, 64);
    assert b[44..44 + |c.password|] == b[44..108][..|c.password|] == c.password;
  }

  /** What is stored is what is read back. */
  lemma DecodeOfEncode(c: WifiConfig)
    requires ValidWifi(c) && c.revision != 0
    ensures DecodeConfig(EncodeConfig(c)) == Some(c)
  {
    RecordLayout(c);
    Le32RoundTrip(c.revision);
    Le32RoundTrip(Crc.Crc32(RecordBody(c)));
  }

  /** Every accepted record is the canonical one of a valid configuration with a nonzero revision. */
  lemma EncodeOfDecode(b: seq<byte>)
    requires DecodeConfig(b).Some?
    ensures var c := DecodeConfig(b).value;
            EncodeConfig(c) == b && ValidWifi(c) && c.revision != 0 && Crc.Sealed(b)
  {
  }

  /** Two accepted records never differ within four bytes only. */
  lemma RecordBurst(x: seq<byte>, y: seq<byte>, p: nat)
    requires DecodeConfig(x).Some? && DecodeConfig(y).Some?
    requires forall i | 0 <= i < RECORD_BYTES && !(p <= i < p + 4) :: x[i] == y[i]
    ensures DecodeConfig(x) == DecodeConfig(y)
  {
    Crc.BurstDetected(x, y, p);
  }

  /** A reference names a slot, the revision in it and the CRC of its record. */
  function Reference(slot: byte, c: WifiConfig): (b: seq<byte>)
    ensures |b| == REFERENCE_BYTES && b[0] == slot
  {
    Crc.Seal([slot] + Le32(c.revision) + EncodeConfig(c)[108..])
  }
}
