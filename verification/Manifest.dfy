/** Signed manifests, attempt contexts and boot journals, with the host tool's reading of them. */
module Manifest {
  import opened Bytes
  import Crc

  const MANIFEST_BYTES := 116
  const PACKAGE_MANIFEST_BYTES := 128
  const CONTEXT_BYTES := 164
  const JOURNAL_BYTES := 152
  const IMAGE_MAX: u32 := 1310720

  const MAGIC1: seq<byte> := [0x44, 0x4d, 0x4f, 0x54, 0x41, 0x31, 0x0d, 0x0a]         // DMOTA1\r\n
  const MAGIC2: seq<byte> := [0x44, 0x4d, 0x4f, 0x54, 0x41, 0x32, 0x0d, 0x0a]         // DMOTA2\r\n
  const CONTEXT_MAGIC: seq<byte> := [0x44, 0x4d, 0x43, 0x54, 0x58, 0x32, 0x0d, 0x0a]  // DMCTX2\r\n

  /** Byte arrays keep their padding, as the firmware's struct does. */
  datatype Fields = Fields(version: u32, imageSize: u32, minSchema: u32, boardId: seq<byte>, buildId: seq<byte>,
                           sha256: seq<byte>, minUpdater: u32, channel: seq<byte>)
  {
    predicate Sized() {
      |boardId| == 16 && |buildId| == 48 && |sha256| == 32 && |channel| == 8
    }

    /** What both formats check apart from policy. */
    predicate Canonical() {
      && Sized() && TextField(boardId) && TextField(buildId)
      && version > 0 && 0 < imageSize <= IMAGE_MAX && minSchema > 0
    }

    /** The fields a DMOTA1 manifest carries. */
    function Legacy(): (m: Fields)
      ensures Sized() ==> m.Sized()
    {
      this.(minUpdater := 1, channel := Zeros(8))
    }
  }
  type Manifest = m: Fields | m.Sized()
    witness Fields(0, 0, 0, Zeros(16), Zeros(48), Zeros(32), 1, Zeros(8))

  const NO_MANIFEST: Manifest := Fields(0, 0, 0, Zeros(16), Zeros(48), Zeros(32), 1, Zeros(8))

  predicate TextChar(c: byte) {
    0x61 <= c <= 0x7a || 0x41 <= c <= 0x5a || 0x30 <= c <= 0x39 || c == 0x2d || c == 0x5f || c == 0x2e
  }

  /** Nonempty identifier text, terminated inside the field and zero-padded. */
  predicate TextField(b: seq<byte>) {
    var t := CStr(b);
    && 0 < |t| < |b|
    && (forall i | 0 <= i < |t| :: TextChar(t[i]))
    && forall i | |t| <= i < |b| :: b[i] == 0
  }

  method CheckTextField(b: seq<byte>) returns (ok: bool)
    ensures ok == TextField(b)
  {
    var t := CStr(b);
    var i := 0;
    while i < |b| && b[i] != 0
      invariant 0 <= i <= |t| && forall j | 0 <= j < i :: TextChar(t[j])
    {
      assert i < |t| && b[i] == t[i];
      if !TextChar(b[i]) { return false; }
      i := i + 1;
    }
    assert forall j | 0 <= j < |t| :: t[j] in t && b[j] == t[j];
    if i == 0 || i == |b| { return false; }
    while i < |b|
      invariant |t| <= i <= |b| && forall j | |t| <= j < i :: b[j] == 0
    {
      if b[i] != 0 { return false; }
      i := i + 1;
    }
    return true;
  }

  function EncodeManifest(m: Manifest): (b: seq<byte>)
    ensures |b| == MANIFEST_BYTES
  {
    MAGIC1 + Le32(m.version) + Le32(m.imageSize) + Le32(m.minSchema) + m.boardId + m.buildId + m.sha256
  }

  function DecodeManifest(b: seq<byte>): Option<Manifest> {
    if |b| != MANIFEST_BYTES || b[..8] != MAGIC1 || !TextField(b[20..36]) || !TextField(b[36..84]) then None
    else
      var m: Manifest := Fields(FromLe32(b[8..12]), FromLe32(b[12..16]), FromLe32(b[16..20]), b[20..36], b[36..84],
                                b[84..116], 1, Zeros(8));
      if m.version > 0 && m.imageSize > 0 && m.imageSize <= IMAGE_MAX && m.minSchema > 0 then Some(m) else None
  }

  function EncodePackage(m: Manifest): (b: seq<byte>)
    ensures |b| == PACKAGE_MANIFEST_BYTES
  {
    MAGIC2 + EncodeManifest(m)[8..] + Le32(m.minUpdater) + m.channel
  }

  function DecodePackage(b: seq<byte>): Option<Manifest> {
    if |b| != PACKAGE_MANIFEST_BYTES || b[..8] != MAGIC2 || !TextField(b[120..128]) then None
    else
      match DecodeManifest(MAGIC1 + b[8..116])
      case None => None
      case Some(legacy) =>
        var m: Manifest := legacy.(minUpdater := FromLe32(b[116..120]), channel := b[120..128]);
        if m.minUpdater >= 2 then Some(m) else None
  }

  lemma ManifestLayout(m: Manifest)
    ensures var b := EncodeManifest(m);
            b[..8] == MAGIC1 && b[8..12] == Le32(m.version) && b[12..16] == Le32(m.imageSize) &&
            b[16..20] == Le32(m.minSchema) && b[20..36] == m.boardId && b[36..84] == m.buildId && b[84..116] == m.sha256
  {
    hide Le32;
    var numbers := MAGIC1 + Le32(m.version) + Le32(m.imageSize) + Le32(m.minSchema);
    var b := EncodeManifest(m);
    assert b == numbers + (m.boardId + m.buildId + m.sha256);
    assert b[..20] == numbers;
    assert numbers[..8] == MAGIC1 && numbers[8..12] == Le32(m.version);
    assert numbers[12..16] == Le32(m.imageSize) && numbers[16..20] == Le32(m.minSchema);
    assert forall i, j | 0 <= i <= j <= 20 :: b[i..j] == numbers[i..j];
    assert b[20..36] == m.boardId;
    assert b[36..84] == m.buildId;
    assert b[84..116] == m.sha256;
  }

  lemma DecodeOfEncode(m: Manifest)
    requires m.Canonical()
    ensures DecodeManifest(EncodeManifest(m)) == Some(m.Legacy())
  {
    hide TextField, EncodeManifest, Le32, FromLe32;
    ManifestLayout(m);
    Le32RoundTrip(m.version);
    Le32RoundTrip(m.imageSize);
    Le32RoundTrip(m.minSchema);
  }

  lemma EncodeOfDecode(b: seq<byte>)
    requires DecodeManifest(b).Some?
    ensures var m := DecodeManifest(b).value;
            m.Canonical() && m == m.Legacy() && EncodeManifest(m) == b
  {
    hide TextField, Le32, FromLe32;
    FromLe32RoundTrip(b[8..12]);
    FromLe32RoundTrip(b[12..16]);
    FromLe32RoundTrip(b[16..20]);
    assert b == b[..8] + b[8..12] + b[12..16] + b[16..20] + b[20..36] + b[36..84] + b[84..116];
  }

  /** Manifests are told apart by their encoding, up to what DMOTA1 does not carry. */
  lemma EncodeInjective(m: Manifest, n: Manifest)
    requires EncodeManifest(m) == EncodeManifest(n)
    ensures m.Legacy() == n.Legacy()
  {
    hide Le32, FromLe32, EncodeManifest;
    ManifestLayout(m);
    ManifestLayout(n);
    Le32RoundTrip(m.version);
    Le32RoundTrip(n.version);
    Le32RoundTrip(m.imageSize);
    Le32RoundTrip(n.imageSize);
    Le32RoundTrip(m.minSchema);
    Le32RoundTrip(n.minSchema);
  }

  predicate PackageCanonical(m: Manifest) {
    m.Canonical() && TextField(m.channel) && m.minUpdater >= 2
  }

  lemma PackageLayout(m: Manifest)
    ensures var b := EncodePackage(m);
            b[..8] == MAGIC2 && MAGIC1 + b[8..116] == EncodeManifest(m) &&
            b[116..120] == Le32(m.minUpdater) && b[120..128] == m.channel
  {
    hide EncodeManifest, Le32;
    var b, e := EncodePackage(m), EncodeManifest(m);
    assert e[..8] == MAGIC1 by { ManifestLayout(m); }
    var front := MAGIC2 + e[8..];
    assert b == front + (Le32(m.minUpdater) + m.channel);
    assert b[..116] == front;
    assert b[..8] == front[..8] == MAGIC2;
    assert b[8..116] == front[8..] == e[8..];
    assert e == e[..8] + e[8..];
    assert b[116..120] == Le32(m.minUpdater);
    assert b[120..128] == m.channel;
  }

  lemma DecodeOfEncodePackage(m: Manifest)
    requires PackageCanonical(m)
    ensures DecodePackage(EncodePackage(m)) == Some(m)
  {
    hide TextField, EncodePackage, EncodeManifest, DecodeManifest, Le32, FromLe32;
    PackageLayout(m);
    DecodeOfEncode(m);
    Le32RoundTrip(m.minUpdater);
  }

  lemma EncodeOfDecodePackage(b: seq<byte>)
    requires DecodePackage(b).Some?
    ensures var m := DecodePackage(b).value;
            PackageCanonical(m) && EncodePackage(m) == b
  {
    hide TextField, EncodeManifest, DecodeManifest, Le32, FromLe32;
    var m := DecodePackage(b).value;
    EncodeOfDecode(MAGIC1 + b[8..116]);
    assert EncodeManifest(m) == EncodeManifest(m.Legacy()) by { LegacyEncodesSame(m); }
    FromLe32RoundTrip(b[116..120]);
    assert (MAGIC1 + b[8..116])[8..] == b[8..116];
    assert b == b[..8] + b[8..116] + b[116..120] + b[120..128];
  }

  lemma LegacyEncodesSame(m: Manifest)
    ensures EncodeManifest(m.Legacy()) == EncodeManifest(m)
  {
  }

  // ---- Transactions, contexts and journals ----------------------------------------------------

  /** 32 lower-case hexadecimal digits. */
  predicate ValidToken(token: seq<byte>) {
    |token| == 32 && forall i | 0 <= i < 32 :: 0x30 <= token[i] <= 0x39 || 0x61 <= token[i] <= 0x66
  }

  datatype Origin = LegacyPush | WebFile | GithubPull

  function OriginByte(o: Origin): byte {
    match o case LegacyPush => 0 case WebFile => 1 case GithubPull => 2
  }

  /** An update attempt, as the sidecar record keeps it. */
  datatype Context = Context(manifest: Manifest, transaction: seq<byte>, origin: Origin)

  const NO_CONTEXT := Context(NO_MANIFEST, [], LegacyPush)

  function ContextBody(c: Context): (b: seq<byte>)
    requires |c.transaction| == 32
    ensures |b| == 160
  {
    CONTEXT_MAGIC + EncodeManifest(c.manifest) + c.transaction + [OriginByte(c.origin), 0, 0, 0]
  }

  function EncodeContext(c: Context): (b: seq<byte>)
    requires |c.transaction| == 32
    ensures |b| == CONTEXT_BYTES
  {
    Crc.Seal(ContextBody(c))
  }

  function DecodeContext(b: seq<byte>): Option<Context> {
    if |b| != CONTEXT_BYTES || b[..8] != CONTEXT_MAGIC || b[157] != 0 || b[158] != 0 || b[159] != 0 ||
       (b[156] != 1 && b[156] != 2) then None
    else if FromLe32(b[160..]) != Crc.Crc32(b[..160]) then None
    else
      match DecodeManifest(b[8..124])
      case None => None
      case Some(m) =>
        if ValidToken(b[124..156]) then Some(Context(m, b[124..156],
            if b[156] == 1 then WebFile else GithubPull)) else None
  }

  predicate ContextOk(c: Context) {
    c.manifest.Canonical() && ValidToken(c.transaction) && c.origin != LegacyPush
  }

  lemma ContextLayout(c: Context)
    requires |c.transaction| == 32
    ensures var b := EncodeContext(c);
            b[..8] == CONTEXT_MAGIC && b[8..124] == EncodeManifest(c.manifest) && b[124..156] == c.transaction &&
            b[156] == OriginByte(c.origin) && b[157] == 0 && b[158] == 0 && b[159] == 0 &&
            b[..160] == ContextBody(c) && b[160..] == Le32(Crc.Crc32(ContextBody(c)))
  {
    hide EncodeManifest, Le32, Crc.Crc32;
    var body, b := ContextBody(c), EncodeContext(c);
    assert b[..160] == body;
    assert forall i, j | 0 <= i <= j <= 160 :: b[i..j] == body[i..j];
  }

  lemma DecodeOfEncodeContext(c: Context)
    requires ContextOk(c)
    ensures DecodeContext(EncodeContext(c)) == Some(c.(manifest := c.manifest.Legacy()))
  {
    hide EncodeManifest, DecodeManifest, EncodeContext, Le32, FromLe32, Crc.Crc32;
    ContextLayout(c);
    DecodeOfEncode(c.manifest);
    Le32RoundTrip(Crc.Crc32(ContextBody(c)));
  }

  lemma EncodeOfDecodeContext(b: seq<byte>)
    requires DecodeContext(b).Some?
    ensures var c := DecodeContext(b).value;
            ContextOk(c) && c.manifest == c.manifest.Legacy() && EncodeContext(c) == b && Crc.Sealed(b)
  {
    hide EncodeManifest, DecodeManifest, Le32, FromLe32, Crc.Crc32, TextField;
    var c := DecodeContext(b).value;
    EncodeOfDecode(b[8..124]);
    assert b[..160] == b[..8] + b[8..124] + b[124..156] + [b[156], b[157], b[158], b[159]];
    FromLe32RoundTrip(b[160..]);
    assert b == b[..160] + b[160..];
  }

  /** Same transaction and same DMOTA1 bytes. */
  predicate ContextMatches(c: Context, m: Manifest, transaction: seq<byte>) {
    ValidToken(transaction) && c.transaction == transaction && EncodeManifest(c.manifest) == EncodeManifest(m)
  }

  function EncodeJournal(m: Manifest, transaction: seq<byte>): (b: seq<byte>)
    requires |transaction| == 32
    ensures |b| == JOURNAL_BYTES
  {
    Crc.Seal(EncodeManifest(m) + transaction)
  }

  function DecodeJournal(b: seq<byte>): Option<(Manifest, seq<byte>)> {
    if |b| != JOURNAL_BYTES || FromLe32(b[148..]) != Crc.Crc32(b[..148]) then None
    else
      match DecodeManifest(b[..116])
      case None => None
      case Some(m) => if ValidToken(b[116..148]) then Some((m, b[116..148])) else None
  }

  lemma DecodeOfEncodeJournal(m: Manifest, transaction: seq<byte>)
    requires m.Canonical() && ValidToken(transaction)
    ensures DecodeJournal(EncodeJournal(m, transaction)) == Some((m.Legacy(), transaction))
  {
    hide EncodeManifest, DecodeManifest, Le32, FromLe32, Crc.Crc32;
    var body, b := EncodeManifest(m) + transaction, EncodeJournal(m, transaction);
    assert b[..148] == body && b[148..] == Le32(Crc.Crc32(body));
    assert b[..116] == body[..116] == EncodeManifest(m) && b[116..148] == body[116..148] == transaction;
    DecodeOfEncode(m);
    Le32RoundTrip(Crc.Crc32(body));
  }

  // ---- The host tools ---------------------------------------------------------------------------

  const BOARD: seq<byte> := [0x6d, 0x35, 0x73, 0x74, 0x61, 0x63, 0x6b, 0x2d, 0x61, 0x74, 0x6f, 0x6d] // m5stack-atom
  const STABLE: seq<byte> := [0x73, 0x74, 0x61, 0x62, 0x6c, 0x65, 0, 0]                              // "stable"

  /** field() of unpack_manifest: the text before the first NUL, if the padding is zero and the text matches. */
  function HostField(raw: seq<byte>): Option<seq<byte>> {
    var t := CStr(raw);
    if |t| == |raw| || (exists i | |t| < i < |raw| :: raw[i] != 0) then None
    else if |t| > 0 && forall i | 0 <= i < |t| :: TextChar(t[i]) then Some(t)
    else None
  }

  datatype HostManifest = HostManifest(version: u32, imageSize: u32, minSchema: u32, boardId: seq<byte>,
                                       buildId: seq<byte>, sha256: seq<byte>)

  function HostUnpack(b: seq<byte>): Option<HostManifest> {
    if |b| != MANIFEST_BYTES then None
    else
      match (HostField(b[20..36]), HostField(b[36..84]))
      case (Some(board), Some(build)) =>
        var m := HostManifest(FromLe32(b[8..12]), FromLe32(b[12..16]), FromLe32(b[16..20]), board, build, b[84..116]);
        if b[..8] != MAGIC1 || m.boardId != BOARD || m.version == 0 || m.minSchema == 0 ||
           !(32 <= m.imageSize <= IMAGE_MAX) then None
        else Some(m)
      case (_, _) => None
  }

  function HostUnpackPackage(b: seq<byte>): Option<HostManifest> {
    if |b| != PACKAGE_MANIFEST_BYTES || b[..8] != MAGIC2 then None
    else
      match HostUnpack(MAGIC1 + b[8..116])
      case None => None
      case Some(m) => if FromLe32(b[116..120]) != 2 || b[120..128] != STABLE then None else Some(m)
  }

  function HostView(m: Manifest): HostManifest {
    HostManifest(m.version, m.imageSize, m.minSchema, CStr(m.boardId), CStr(m.buildId), m.sha256)
  }

  lemma HostFieldIsTextField(raw: seq<byte>)
    requires |raw| > 0
    ensures HostField(raw).Some? <==> TextField(raw)
    ensures HostField(raw).Some? ==> HostField(raw).value == CStr(raw)
  {
  }

  lemma HostUnpackIsDecode(b: seq<byte>)
    ensures HostUnpack(b).Some? <==>
            DecodeManifest(b).Some? && CStr(DecodeManifest(b).value.boardId) == BOARD &&
                DecodeManifest(b).value.imageSize >= 32
    ensures HostUnpack(b).Some? ==> HostUnpack(b).value == HostView(DecodeManifest(b).value)
  {
    hide HostField, TextField, FromLe32, CStr;
    if |b| == MANIFEST_BYTES {
      HostFieldIsTextField(b[20..36]);
      HostFieldIsTextField(b[36..84]);
    }
  }

  lemma StableIsText()
    ensures TextField(STABLE)
  {
    CStrUnique(STABLE, STABLE[..6]);
  }

  /** The packaging tool accepts exactly the device's manifests for this board with protocol 2 on the stable
      channel and at least 32 bytes of image, and both read the same fields. */
  lemma HostAcceptsDeviceManifests(b: seq<byte>)
    ensures HostUnpackPackage(b).Some? <==>
            DecodePackage(b).Some? &&
            var m := DecodePackage(b).value;
            CStr(m.boardId) == BOARD && m.imageSize >= 32 && m.minUpdater == 2 && m.channel == STABLE
    ensures HostUnpackPackage(b).Some? ==> HostUnpackPackage(b).value == HostView(DecodePackage(b).value)
  {
    hide HostUnpack, DecodeManifest, TextField, FromLe32, CStr;
    if |b| == PACKAGE_MANIFEST_BYTES {
      StableIsText();
      HostUnpackIsDecode(MAGIC1 + b[8..116]);
    }
  }

  /** manifest_bytes of the packaging tool, after its image checks: struct.pack pads text with zeros. */
  function HostPack(version: u32, imageSize: u32, schema: u32, build: seq<byte>, sha: seq<byte>): (b: seq<byte>)
    requires |build| <= 47 && |sha| == 32
  {
    MAGIC2 + Le32(version) + Le32(imageSize) + Le32(schema) + Padded(BOARD, 16) + Padded(build,
        48) + sha + Le32(2) + STABLE
  }

  lemma PaddedIsText(t: seq<byte>, capacity: nat)
    requires 0 < |t| < capacity && forall i | 0 <= i < |t| :: TextChar(t[i])
    ensures TextField(Padded(t, capacity))
  {
    CStrOfPadded(t, capacity);
  }

  /** Every package the tool builds decodes on the device to the fields it was built from. */
  lemma DeviceReadsHostPackage(version: u32, imageSize: u32, schema: u32, build: seq<byte>, sha: seq<byte>)
    requires version > 0 && schema > 0 && 32 <= imageSize <= IMAGE_MAX && |sha| == 32
    requires 0 < |build| <= 47 && forall i | 0 <= i < |build| :: TextChar(build[i])
    ensures DecodePackage(HostPack(version, imageSize, schema, build, sha)) ==
            Some(Fields(version, imageSize, schema, Padded(BOARD, 16), Padded(build, 48), sha, 2, STABLE))
  {
    hide EncodeManifest, EncodePackage, DecodePackage, Padded, Le32, TextField;
    var m: Manifest := Fields(version, imageSize, schema, Padded(BOARD, 16), Padded(build, 48), sha, 2, STABLE);
    PaddedIsText(BOARD, 16);
    PaddedIsText(build, 48);
    StableIsText();
    DecodeOfEncodePackage(m);
    HostPackIsEncode(m);
  }

  lemma HostPackIsEncode(m: Manifest)
    ensures EncodePackage(m) ==
            MAGIC2 + Le32(m.version) + Le32(m.imageSize) + Le32(m.minSchema) + m.boardId + m.buildId + m.sha256 +
            Le32(m.minUpdater) + m.channel
  {
    hide Le32;
    var tail := Le32(m.version) + Le32(m.imageSize) + Le32(m.minSchema) + m.boardId + m.buildId + m.sha256;
    assert EncodeManifest(m) == MAGIC1 + tail;
    assert EncodeManifest(m)[8..] == tail;
  }
}
