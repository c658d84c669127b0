/** Which texts the configuration parser accepts: exactly the documents below, in any field order, with any
    white space and any mix of literal and escaped characters. */
module JsonText {
  import opened Bytes
  import opened Wifi
  import opened Json

  datatype Token = Token(pad: seq<byte>, pieces: seq<Piece>) {
    predicate Ok() {
      Spaces(pad) && AllOk(pieces)
    }

    function Then(r: seq<byte>): seq<byte> {
      pad + ([QUOTE] + Written(pieces, [QUOTE] + r))
    }
  }

  datatype Content = Quoted(token: Token) | Digits(pad: seq<byte>, digits: seq<byte>) {
    function Then(r: seq<byte>): seq<byte> {
      match this
      case Quoted(token) => token.Then(r)
      case Digits(pad, digits) => pad + (digits + r)
    }
  }

  /** One field. The text of each part is given with the text that follows it. */
  datatype Member = Member(key: Token, colonPad: seq<byte>, content: Content) {
    /** The value fits the key and the buffer reserved for it. */
    predicate Ok() {
      && key.Ok() && Spaces(colonPad)
      && match NameOf(ValueOf(key.pieces))
         case None => false
         case Some(SsidName) => content.Quoted? && content.token.Ok() && |ValueOf(content.token.pieces)| <= 32
         case Some(PasswordName) => content.Quoted? && content.token.Ok() && |ValueOf(content.token.pieces)| <= 64
         case Some(RevisionName) => content.Digits? && Spaces(content.pad) && Number(content.digits)
    }

    function Name(): Json.Name
      requires Ok()
    {
      NameOf(ValueOf(key.pieces)).value
    }

    function Then(r: seq<byte>): seq<byte> {
      key.Then(colonPad + ([COLON] + content.Then(r)))
    }

    function Apply(c: WifiConfig): WifiConfig
      requires Ok()
    {
      match Name()
      case SsidName => ValueHasNoNul(content.token.pieces); c.(ssid := ValueOf(content.token.pieces))
      case PasswordName => ValueHasNoNul(content.token.pieces); c.(password := ValueOf(content.token.pieces))
      case RevisionName => c.(revision := Decimal(content.digits))
    }
  }

  datatype Document = Document(openPad: seq<byte>, first: Member, comma1Pad: seq<byte>, second: Member,
                               comma2Pad: seq<byte>, third: Member, closePad: seq<byte>, tailPad: seq<byte>) {
    predicate Ok() {
      && Spaces(openPad) && Spaces(comma1Pad) && Spaces(comma2Pad) && Spaces(closePad) && Spaces(tailPad)
      && first.Ok() && second.Ok() && third.Ok()
      && first.Name() != second.Name() && first.Name() != third.Name() && second.Name() != third.Name()
    }

    function End(): seq<byte> {
      closePad + ([CLOSE] + tailPad)
    }

    function FromThird(): seq<byte> {
      comma2Pad + ([COMMA] + third.Then(End()))
    }

    function FromSecond(): seq<byte> {
      comma1Pad + ([COMMA] + second.Then(FromThird()))
    }

    function Text(): seq<byte> {
      openPad + ([OPEN] + first.Then(FromSecond()))
    }

    function Config(): WifiConfig
      requires Ok()
    {
      third.Apply(second.Apply(first.Apply(BLANK)))
    }
  }

  lemma {:induction false} ValueHasNoNul(pieces: seq<Piece>)
    requires AllOk(pieces)
    ensures 0 !in ValueOf(pieces)
  {
    if |pieces| > 0 { ValueHasNoNul(pieces[1..]); }
  }

  // ---- Every document is accepted -----------------------------------------------------------

  lemma {:induction false} SkipsPad(pad: seq<byte>, r: seq<byte>)
    requires Spaces(pad) && (|r| > 0 ==> !IsSpace(r[0]))
    ensures SkipSpace(pad + r) == r
  {
    if |pad| == 0 {
      assert pad + r == r;
    } else {
      assert (pad + r)[1..] == pad[1..] + r;
      SkipsPad(pad[1..], r);
    }
  }

  lemma TakesMark(pad: seq<byte>, c: byte, r: seq<byte>)
    requires Spaces(pad) && !IsSpace(c)
    ensures Take(pad + ([c] + r), c) == Some(r)
  {
    SkipsPad(pad, [c] + r);
    assert ([c] + r)[1..] == r;
  }

  lemma ReadsWord(d: seq<byte>, r: seq<byte>)
    requires HexWord(d)
    ensures |d + r| >= 4 && (d + r)[..4] == d && Word(d + r) == Some((HexValue(d), r))
  {
    assert (d + r)[..4] == d && (d + r)[4..] == r;
  }

  lemma DropsTwo(a: byte, b: byte, r: seq<byte>)
    ensures ([a, b] + r)[2..] == r
  {
  }

  lemma ReadsPiece(piece: Piece, r: seq<byte>)
    requires piece.Ok()
    ensures |piece.Then(r)| > 0 && piece.Then(r)[0] != QUOTE
    ensures NextPiece(piece.Then(r)) == Some((piece, r))
  {
    match piece
    case Literal(b) => assert ([b] + r)[1..] == r;
    case Escape(b) => DropsTwo(BACKSLASH, b, r);
    case Unicode(d) =>
      DropsTwo(BACKSLASH, LOWER_U, d + r);
      ReadsWord(d, r);
    case Surrogates(hi, lo) =>
      var second := [BACKSLASH, LOWER_U] + (lo + r);
      DropsTwo(BACKSLASH, LOWER_U, hi + second);
      ReadsWord(hi, second);
      DropsTwo(BACKSLASH, LOWER_U, lo + r);
      ReadsWord(lo, r);
  }

  lemma Append(used: seq<byte>, v: seq<byte>, more: seq<byte>)
    ensures used + v + more == used + (v + more) && |used + v| == |used| + |v|
    ensures 0 !in used && 0 !in v ==> 0 !in used + v
  {
  }

  lemma {:induction false} ReadsChars(pieces: seq<Piece>, used: seq<byte>, capacity: nat, r: seq<byte>)
    requires AllOk(pieces) && 0 !in used && |used| + |ValueOf(pieces)| < capacity
    ensures Chars(Written(pieces, [QUOTE] + r), used, capacity) == Some((used + ValueOf(pieces), r))
    decreases |pieces|
  {
    if |pieces| == 0 {
      assert ([QUOTE] + r)[1..] == r && used + ValueOf(pieces) == used;
    } else {
      var v := pieces[0].Value();
      Append(used, v, ValueOf(pieces[1..]));
      ReadsPiece(pieces[0], Written(pieces[1..], [QUOTE] + r));
      ReadsChars(pieces[1..], used + v, capacity, r);
    }
  }

  lemma ReadsToken(token: Token, capacity: nat, r: seq<byte>)
    requires token.Ok() && |ValueOf(token.pieces)| < capacity
    ensures String(token.Then(r), capacity) == Some((ValueOf(token.pieces), r))
  {
    TakesMark(token.pad, QUOTE, Written(token.pieces, [QUOTE] + r));
    ReadsChars(token.pieces, [], capacity, r);
    assert [] + ValueOf(token.pieces) == ValueOf(token.pieces);
  }

  lemma {:induction false} RunOfDigits(d: seq<byte>, r: seq<byte>)
    requires (forall i | 0 <= i < |d| :: IsDigit(d[i])) && (|r| > 0 ==> !IsDigit(r[0]))
    ensures DigitRun(d + r) == |d| && (d + r)[..|d|] == d && (d + r)[|d|..] == r
  {
    if |d| == 0 {
      assert d + r == r;
    } else {
      assert (d + r)[1..] == d[1..] + r;
      RunOfDigits(d[1..], r);
    }
  }

  lemma ReadsDigits(pad: seq<byte>, d: seq<byte>, r: seq<byte>)
    requires Spaces(pad) && Number(d) && (|r| > 0 ==> !IsDigit(r[0]))
    ensures ReadNumber(pad + (d + r)) == Some((Decimal(d), r))
  {
    assert (d + r)[0] == d[0];
    SkipsPad(pad, d + r);
    RunOfDigits(d, r);
  }

  lemma ReadsMember(m: Member, c: WifiConfig, r: seq<byte>)
    requires m.Ok() && (|r| > 0 ==> !IsDigit(r[0]))
    ensures Field(m.Then(r), c) == Some((m.Name(), m.Apply(c), r))
  {
    hide String, Take, ReadNumber;
    var value := m.content.Then(r);
    ReadsToken(m.key, 24, m.colonPad + ([COLON] + value));
    TakesMark(m.colonPad, COLON, value);
    match m.Name()
    case SsidName => ReadsToken(m.content.token, 33, r);
    case PasswordName => ReadsToken(m.content.token, 65, r);
    case RevisionName => ReadsDigits(m.content.pad, m.content.digits, r);
  }

  lemma NoDigitAhead(pad: seq<byte>, c: byte, r: seq<byte>)
    requires Spaces(pad) && !IsDigit(c)
    ensures |pad + ([c] + r)| > 0 && !IsDigit((pad + ([c] + r))[0])
  {
    if |pad| > 0 { assert IsSpace(pad[0]); }
  }

  lemma ReadsField(pad: seq<byte>, m: Member, i: nat, seen: set<Name>, c: WifiConfig, r: seq<byte>)
    requires Spaces(pad) && m.Ok() && 0 < i < 3 && m.Name() !in seen && (|r| > 0 ==> !IsDigit(r[0]))
    ensures FieldsFrom(pad + ([COMMA] + m.Then(r)), i, seen, c) == FieldsFrom(r, i + 1, seen + {m.Name()}, m.Apply(c))
  {
    TakesMark(pad, COMMA, m.Then(r));
    ReadsMember(m, c, r);
  }

  lemma ReadsFields(doc: Document)
    requires doc.Ok()
    ensures FieldsFrom(doc.first.Then(doc.FromSecond()), 0, {}, BLANK) == Some((doc.Config(), doc.End()))
  {
    hide Field, ValueOf, Written;
    var c1 := doc.first.Apply(BLANK);
    var seen1 := {} + {doc.first.Name()};
    NoDigitAhead(doc.comma1Pad, COMMA, doc.second.Then(doc.FromThird()));
    ReadsMember(doc.first, BLANK, doc.FromSecond());
    NoDigitAhead(doc.comma2Pad, COMMA, doc.third.Then(doc.End()));
    ReadsField(doc.comma1Pad, doc.second, 1, seen1, c1, doc.FromThird());
    NoDigitAhead(doc.closePad, CLOSE, doc.tailPad);
    ReadsField(doc.comma2Pad, doc.third, 2, seen1 + {doc.second.Name()}, doc.second.Apply(c1), doc.End());
  }

  /** Field order, white space and the choice between literals and escapes do not matter. */
  lemma ParsesDocument(doc: Document)
    requires doc.Ok() && ValidWifi(doc.Config()) && |doc.Text()| <= BODY_MAX
    ensures ParseConfig(doc.Text()) == Some(doc.Config())
  {
    hide Field, FieldsFrom, ValidWifi, NameOf, ValueOf, Written;
    TakesMark(doc.openPad, OPEN, doc.first.Then(doc.FromSecond()));
    ReadsFields(doc);
    TakesMark(doc.closePad, CLOSE, doc.tailPad);
    SkipsPad(doc.tailPad, []);
    assert doc.tailPad + [] == doc.tailPad;
    DocumentHasNoNul(doc);
  }

  lemma Joined(a: seq<byte>, b: seq<byte>)
    requires 0 !in a && 0 !in b
    ensures 0 !in a + b
  {
  }

  lemma PadHasNoNul(pad: seq<byte>, c: byte, r: seq<byte>)
    requires Spaces(pad) && c != 0 && 0 !in r
    ensures 0 !in pad + ([c] + r)
  {
    assert forall i | 0 <= i < |pad| :: IsSpace(pad[i]);
  }

  lemma WordHasNoNul(d: seq<byte>)
    requires HexWord(d)
    ensures 0 !in d
  {
  }

  lemma PieceHasNoNul(piece: Piece, r: seq<byte>)
    requires piece.Ok() && 0 !in r
    ensures 0 !in piece.Then(r)
  {
    match piece
    case Literal(b) =>
    case Escape(b) =>
    case Unicode(d) =>
      WordHasNoNul(d);
      Joined(d, r);
      Joined([BACKSLASH, LOWER_U], d + r);
    case Surrogates(hi, lo) =>
      WordHasNoNul(hi);
      WordHasNoNul(lo);
      Joined(lo, r);
      Joined([BACKSLASH, LOWER_U], lo + r);
      Joined(hi, [BACKSLASH, LOWER_U] + (lo + r));
      Joined([BACKSLASH, LOWER_U], hi + ([BACKSLASH, LOWER_U] + (lo + r)));
  }

  lemma {:induction false} WrittenHasNoNul(pieces: seq<Piece>, r: seq<byte>)
    requires AllOk(pieces) && 0 !in r
    ensures 0 !in Written(pieces, r)
  {
    if |pieces| > 0 {
      WrittenHasNoNul(pieces[1..], r);
      PieceHasNoNul(pieces[0], Written(pieces[1..], r));
    }
  }

  lemma TokenHasNoNul(token: Token, r: seq<byte>)
    requires token.Ok() && 0 !in r
    ensures 0 !in token.Then(r)
  {
    Joined([QUOTE], r);
    WrittenHasNoNul(token.pieces, [QUOTE] + r);
    PadHasNoNul(token.pad, QUOTE, Written(token.pieces, [QUOTE] + r));
  }

  lemma MemberHasNoNul(m: Member, r: seq<byte>)
    requires m.Ok() && 0 !in r
    ensures 0 !in m.Then(r)
  {
    match m.content {
      case Quoted(token) => TokenHasNoNul(token, r);
      case Digits(pad, digits) =>
        assert 0 !in digits && 0 !in pad;
        Joined(digits, r);
        Joined(pad, digits + r);
    }
    PadHasNoNul(m.colonPad, COLON, m.content.Then(r));
    TokenHasNoNul(m.key, m.colonPad + ([COLON] + m.content.Then(r)));
  }

  lemma DocumentHasNoNul(doc: Document)
    requires doc.Ok()
    ensures 0 !in doc.Text()
  {
    assert 0 !in doc.tailPad;
    PadHasNoNul(doc.closePad, CLOSE, doc.tailPad);
    MemberHasNoNul(doc.third, doc.End());
    PadHasNoNul(doc.comma2Pad, COMMA, doc.third.Then(doc.End()));
    MemberHasNoNul(doc.second, doc.FromThird());
    PadHasNoNul(doc.comma1Pad, COMMA, doc.second.Then(doc.FromThird()));
    MemberHasNoNul(doc.first, doc.FromSecond());
    PadHasNoNul(doc.openPad, OPEN, doc.first.Then(doc.FromSecond()));
  }

  // ---- Nothing else is accepted -----------------------------------------------------------

  lemma PadBefore(s: seq<byte>) returns (pad: seq<byte>)
    ensures Spaces(pad) && s == pad + SkipSpace(s)
  {
    pad := s[..|s| - |SkipSpace(s)|];
    SplitAt(s, |pad|);
  }

  lemma SplitAt(s: seq<byte>, n: nat)
    requires n <= |s|
    ensures s == s[..n] + s[n..]
  {
  }

  lemma MarkTaken(s: seq<byte>, c: byte) returns (pad: seq<byte>)
    requires Take(s, c).Some?
    ensures Spaces(pad) && s == pad + ([c] + Take(s, c).value)
  {
    pad := PadBefore(s);
    var r := SkipSpace(s);
    SplitAt(r, 1);
    assert r[..1] == [c];
  }

  lemma {:induction false} CharsRead(s: seq<byte>, used: seq<byte>, capacity: nat) returns (pieces: seq<Piece>)
    requires 0 !in used && |used| < capacity && Chars(s, used, capacity).Some?
    ensures AllOk(pieces)
    ensures var (v, r) := Chars(s, used, capacity).value;
            v == used + ValueOf(pieces) && s == Written(pieces, [QUOTE] + r)
    decreases |s|
  {
    if s[0] == QUOTE {
      pieces := [];
      SplitAt(s, 1);
      assert s[..1] == [QUOTE];
      assert used + [] == used;
    } else {
      var (piece, rest) := NextPiece(s).value;
      var more := CharsRead(rest, used + piece.Value(), capacity);
      pieces := [piece] + more;
      assert pieces[0] == piece && pieces[1..] == more;
      Append(used, piece.Value(), ValueOf(more));
    }
  }

  lemma TokenRead(s: seq<byte>, capacity: nat) returns (token: Token)
    requires capacity > 0 && String(s, capacity).Some?
    ensures token.Ok()
    ensures var (v, r) := String(s, capacity).value;
            v == ValueOf(token.pieces) && s == token.Then(r)
  {
    hide Chars, Take, ValueOf, Written;
    var pad := MarkTaken(s, QUOTE);
    var pieces := CharsRead(Take(s, QUOTE).value, [], capacity);
    token := Token(pad, pieces);
    assert [] + ValueOf(pieces) == ValueOf(pieces);
  }

  lemma DigitsRead(s: seq<byte>) returns (content: Content)
    requires ReadNumber(s).Some?
    ensures content.Digits? && Spaces(content.pad) && Number(content.digits)
    ensures var (v, r) := ReadNumber(s).value;
            v == Decimal(content.digits) && s == content.Then(r)
  {
    var pad := PadBefore(s);
    var tail := SkipSpace(s);
    var n := DigitRun(tail);
    SplitAt(tail, n);
    content := Digits(pad, tail[..n]);
  }

  lemma MemberRead(s: seq<byte>, c: WifiConfig) returns (m: Member)
    requires Field(s, c).Some?
    ensures m.Ok()
    ensures var (name, next, r) := Field(s, c).value;
            name == m.Name() && next == m.Apply(c) && s == m.Then(r)
  {
    var key := TokenRead(s, 24);
    var afterKey := String(s, 24).value.1;
    var colonPad := MarkTaken(afterKey, COLON);
    var value := Take(afterKey, COLON).value;
    match Field(s, c).value.0 {
      case SsidName => var token := TokenRead(value, 33); m := Member(key, colonPad, Quoted(token));
      case PasswordName => var token := TokenRead(value, 65); m := Member(key, colonPad, Quoted(token));
      case RevisionName => var digits := DigitsRead(value); m := Member(key, colonPad, digits);
    }
  }

  /** Reads the whole object back as a document. */
  lemma DocumentRead(json: seq<byte>) returns (doc: Document)
    requires ParseConfig(json).Some?
    ensures doc.Ok() && doc.Text() == json && doc.Config() == ParseConfig(json).value
  {
    var openPad := MarkTaken(json, OPEN);
    var s0 := Take(json, OPEN).value;
    var m0 := MemberRead(s0, BLANK);
    var (n0, c1, s1) := Field(s0, BLANK).value;
    assert FieldsFrom(s1, 1, {} + {n0}, c1) == FieldsFrom(s0, 0, {}, BLANK);
    var pad1 := MarkTaken(s1, COMMA);
    var t1 := Take(s1, COMMA).value;
    var m1 := MemberRead(t1, c1);
    var (n1, c2, s2) := Field(t1, c1).value;
    assert FieldsFrom(s2, 2, {} + {n0} + {n1}, c2) == FieldsFrom(s1, 1, {} + {n0}, c1);
    var pad2 := MarkTaken(s2, COMMA);
    var t2 := Take(s2, COMMA).value;
    var m2 := MemberRead(t2, c2);
    var (n2, c3, s3) := Field(t2, c2).value;
    assert FieldsFrom(s3, 3, {} + {n0} + {n1} + {n2}, c3) == FieldsFrom(s2, 2, {} + {n0} + {n1}, c2);
    var closePad := MarkTaken(s3, CLOSE);
    var tail := Take(s3, CLOSE).value;
    var tailPad := PadBefore(tail);
    assert tailPad + [] == tailPad;
    doc := Document(openPad, m0, pad1, m1, pad2, m2, closePad, tailPad);
    assert n2 !in {} + {n0} + {n1} && n1 !in {} + {n0};
  }

  ghost predicate Describes(json: seq<byte>, c: WifiConfig) {
    exists doc: Document :: doc.Ok() && doc.Text() == json && doc.Config() == c
  }

  /** The parser returns c exactly for the documents of at most 1024 bytes that describe the valid c. */
  lemma ParsesExactlyDocuments(json: seq<byte>, c: WifiConfig)
    ensures ParseConfig(json) == Some(c) <==> |json| <= BODY_MAX && ValidWifi(c) && Describes(json, c)
  {
    if ParseConfig(json) == Some(c) {
      var doc := DocumentRead(json);
    }
    if |json| <= BODY_MAX && ValidWifi(c) && Describes(json, c) {
      var doc: Document :| doc.Ok() && doc.Text() == json && doc.Config() == c;
      ParsesDocument(doc);
    }
  }
}
