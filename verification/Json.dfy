/** The configuration request: a bounded JSON reader and the documents it accepts. */
module Json {
  import opened Bytes
  import Utf8
  import opened Wifi

  const BODY_MAX := 1024

  const QUOTE: byte := 0x22
  const BACKSLASH: byte := 0x5c
  const SLASH: byte := 0x2f
  const LOWER_U: byte := 0x75
  const COMMA: byte := 0x2c
  const COLON: byte := 0x3a
  const OPEN: byte := 0x7b
  const CLOSE: byte := 0x7d

  const SSID: seq<byte> := [0x73, 0x73, 0x69, 0x64]                                  // "ssid"
  const PASSWORD: seq<byte> := [0x70, 0x61, 0x73, 0x73, 0x77, 0x6f, 0x72, 0x64]      // "password"
  const REVISION: seq<byte> :=                                                       // "configRevision"
    [0x63, 0x6f, 0x6e, 0x66, 0x69, 0x67, 0x52, 0x65, 0x76, 0x69, 0x73, 0x69, 0x6f, 0x6e]

  // ---- The grammar ------------------------------------------------------------------------

  predicate IsSpace(c: byte) {
    c == 0x20 || c == 0x0d || c == 0x0a || c == 0x09
  }

  predicate IsDigit(c: byte) {
    0x30 <= c <= 0x39
  }

  predicate Spaces(s: seq<byte>) {
    forall i | 0 <= i < |s| :: IsSpace(s[i])
  }

  predicate HexWord(d: seq<byte>) {
    |d| == 4 && forall i | 0 <= i < 4 :: HexDigit(d[i]).Some?
  }

  function HexValue(d: seq<byte>): (v: nat)
    requires HexWord(d)
    ensures v < 0x1_0000
  {
    ((HexDigit(d[0]).value * 0x10 + HexDigit(d[1]).value) * 0x10 + HexDigit(d[2]).value) * 0x10 + HexDigit(d[3]).value
  }

  /** One character of a JSON string: itself, a short escape, \uXXXX, or a surrogate pair of them. */
  datatype Piece =
    | Literal(b: byte)
    | Escape(b: byte)
    | Unicode(d: seq<byte>)
    | Surrogates(hi: seq<byte>, lo: seq<byte>)
  {
    predicate Ok() {
      match this
      case Literal(b) => b >= 0x20 && b != QUOTE && b != BACKSLASH
      case Escape(b) => b == QUOTE || b == BACKSLASH || b == SLASH
      case Unicode(d) => HexWord(d) && HexValue(d) != 0 && Utf8.Scalar(HexValue(d))
      case Surrogates(hi, lo) =>
        HexWord(hi) && HexWord(lo) && 0xd800 <= HexValue(hi) <= 0xdbff && 0xdc00 <= HexValue(lo) <= 0xdfff
    }

    /** The piece as written, followed by r. */
    function Then(r: seq<byte>): seq<byte> {
      match this
      case Literal(b) => [b] + r
      case Escape(b) => [BACKSLASH, b] + r
      case Unicode(d) => [BACKSLASH, LOWER_U] + (d + r)
      case Surrogates(hi, lo) => [BACKSLASH, LOWER_U] + (hi + ([BACKSLASH, LOWER_U] + (lo + r)))
    }

    /** The bytes it stands for: \u escapes stand for the UTF-8 of their scalar value. */
    function Value(): (v: seq<byte>)
      requires Ok()
      ensures 1 <= |v| <= 4 && 0 !in v
    {
      match this
      case Literal(b) => [b]
      case Escape(b) => [b]
      case Unicode(d) => Utf8.Encode(HexValue(d))
      case Surrogates(hi, lo) => Utf8.Encode(0x1_0000 + (HexValue(hi) - 0xd800) * 0x400 + (HexValue(lo) - 0xdc00))
    }
  }

  predicate AllOk(pieces: seq<Piece>) {
    forall i | 0 <= i < |pieces| :: pieces[i].Ok()
  }

  /** The pieces as written, followed by r. */
  function Written(pieces: seq<Piece>, r: seq<byte>): seq<byte> {
    if |pieces| == 0 then r else pieces[0].Then(Written(pieces[1..], r))
  }

  function ValueOf(pieces: seq<Piece>): seq<byte>
    requires AllOk(pieces)
  {
    if |pieces| == 0 then [] else pieces[0].Value() + ValueOf(pieces[1..])
  }

  function DigitValue(c: byte): nat
    requires IsDigit(c)
  {
    c - 0x30
  }

  function Decimal(d: seq<byte>): nat
    requires forall i | 0 <= i < |d| :: IsDigit(d[i])
  {
    if |d| == 0 then 0 else Decimal(d[..|d| - 1]) * 10 + DigitValue(d[|d| - 1])
  }

  predicate Number(d: seq<byte>) {
    |d| > 0 && (forall i | 0 <= i < |d| :: IsDigit(d[i])) && (|d| > 1 ==> d[0] != 0x30) && Decimal(d) <= U32_MAX
  }

  // ---- The reader, as functions of the remaining input --------------------------------------

  function SkipSpace(s: seq<byte>): (r: seq<byte>)
    ensures |r| <= |s| && r == s[|s| - |r|..] && Spaces(s[..|s| - |r|])
    ensures |r| > 0 ==> !IsSpace(r[0])
  {
    if |s| > 0 && IsSpace(s[0]) then SkipSpace(s[1..]) else s
  }

  function Take(s: seq<byte>, c: byte): Option<seq<byte>> {
    var r := SkipSpace(s);
    if |r| == 0 || r[0] != c then None else Some(r[1..])
  }

  function Word(s: seq<byte>): Option<(nat, seq<byte>)> {
    if |s| >= 4 && HexWord(s[..4]) then Some((HexValue(s[..4]), s[4..])) else None
  }

  lemma WordThenRest(s: seq<byte>)
    requires |s| >= 4
    ensures s == s[..4] + s[4..]
  {
  }

  lemma EscapeThenRest(s: seq<byte>)
    requires |s| >= 2
    ensures s == [s[0], s[1]] + s[2..]
  {
  }

  /** What follows \u: four digits, and a second escape if they are a high surrogate. */
  function UnicodePiece(s: seq<byte>): (r: Option<(Piece, seq<byte>)>)
    ensures r.Some? ==> r.value.0.Ok() && [BACKSLASH, LOWER_U] + s == r.value.0.Then(r.value.1) && |r.value.1| < |s|
  {
    match Word(s)
    case None => None
    case Some((v, r)) =>
      if 0xd800 <= v <= 0xdbff then
        if |r| < 2 || r[0] != BACKSLASH || r[1] != LOWER_U then None
        else
          match Word(r[2..])
          case None => None
          case Some((low, rest)) =>
            if low < 0xdc00 || low > 0xdfff then None
            else
              WordThenRest(s);
              EscapeThenRest(r);
              WordThenRest(r[2..]);
              Some((Surrogates(s[..4], r[2..][..4]), rest))
      else if 0xdc00 <= v <= 0xdfff || v == 0 then None
      else
        WordThenRest(s);
        Some((Unicode(s[..4]), r))
  }

  function NextPiece(s: seq<byte>): (r: Option<(Piece, seq<byte>)>)
    requires |s| > 0
    ensures r.Some? ==> r.value.0.Ok() && s == r.value.0.Then(r.value.1) && |r.value.1| < |s|
  {
    if s[0] == QUOTE || s[0] < 0x20 then None
    else if s[0] != BACKSLASH then
      assert s == [s[0]] + s[1..];
      Some((Literal(s[0]), s[1..]))
    else if |s| < 2 then None
    else if s[1] == LOWER_U then
      EscapeThenRest(s);
      UnicodePiece(s[2..])
    else if s[1] == QUOTE || s[1] == BACKSLASH || s[1] == SLASH then
      EscapeThenRest(s);
      Some((Escape(s[1]), s[2..]))
    else None
  }

  /** The characters of a string after its opening quote, given those already stored. */
  function Chars(s: seq<byte>, used: seq<byte>, capacity: nat): (r: Option<(seq<byte>, seq<byte>)>)
    requires 0 !in used && |used| < capacity
    ensures r.Some? ==> 0 !in r.value.0 && |r.value.0| < capacity
    decreases |s|
  {
    if |s| == 0 then None
    else if s[0] == QUOTE then Some((used, s[1..]))
    else
      match NextPiece(s)
      case None => None
      case Some((piece, r)) =>
        if |used| + |piece.Value()| >= capacity then None else Chars(r, used + piece.Value(), capacity)
  }

  function String(s: seq<byte>, capacity: nat): (r: Option<(seq<byte>, seq<byte>)>)
    requires capacity > 0
    ensures r.Some? ==> 0 !in r.value.0 && |r.value.0| < capacity
  {
    match Take(s, QUOTE)
    case None => None
    case Some(r) => Chars(r, [], capacity)
  }

  function DigitRun(s: seq<byte>): (n: nat)
    ensures n <= |s| && (forall i | 0 <= i < n :: IsDigit(s[i])) && (n < |s| ==> !IsDigit(s[n]))
  {
    if |s| > 0 && IsDigit(s[0]) then 1 + DigitRun(s[1..]) else 0
  }

  function ReadNumber(s: seq<byte>): Option<(u32, seq<byte>)> {
    var r := SkipSpace(s);
    var n := DigitRun(r);
    if Number(r[..n]) then Some((Decimal(r[..n]), r[n..])) else None
  }

  datatype Name = SsidName | PasswordName | RevisionName

  function NameOf(key: seq<byte>): Option<Name> {
    if key == SSID then Some(SsidName)
    else if key == PASSWORD then Some(PasswordName)
    else if key == REVISION then Some(RevisionName)
    else None
  }

  /** A key, a colon and the value that belongs to the key. */
  function Field(s: seq<byte>, c: WifiConfig): Option<(Name, WifiConfig, seq<byte>)> {
    match String(s, 24)
    case None => None
    case Some((key, afterKey)) =>
      match Take(afterKey, COLON)
      case None => None
      case Some(r) =>
        match NameOf(key)
        case None => None
        case Some(SsidName) =>
          (match String(r, 33) case None => None case Some((v, rest)) => Some((SsidName, c.(ssid := v), rest)))
        case Some(PasswordName) =>
          (match String(r, 65) case None => None case Some((v, rest)) => Some((PasswordName, c.(password := v), rest)))
        case Some(RevisionName) =>
          match ReadNumber(r) case None => None case Some((v, rest)) => Some((RevisionName, c.(revision := v), rest))
  }

  /** The loop over three fields; seen is the bit mask of those already read. */
  function FieldsFrom(s: seq<byte>, i: nat, seen: set<Name>, c: WifiConfig): Option<(WifiConfig, seq<byte>)>
    requires i <= 3
    decreases 3 - i
  {
    if i == 3 then Some((c, s))
    else
      var start := if i > 0 then Take(s, COMMA) else Some(s);
      if start.None? then None
      else
        match Field(start.value, c)
        case None => None
        case Some((name, next, rest)) =>
          if name in seen then None else FieldsFrom(rest, i + 1, seen + {name}, next)
  }

  function ParseConfig(json: seq<byte>): Option<WifiConfig> {
    if |json| == 0 || |json| > BODY_MAX || 0 in json then None
    else
      match Take(json, OPEN)
      case None => None
      case Some(s) =>
        match FieldsFrom(s, 0, {}, BLANK)
        case None => None
        case Some((c, rest)) =>
          match Take(rest, CLOSE)
          case None => None
          case Some(tail) =>
            if SkipSpace(tail) == [] && ValidWifi(c) then Some(c) else None
  }
}
