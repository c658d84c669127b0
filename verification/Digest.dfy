/** The replay table of HTTP Digest authentication. */
module Digest {
  import opened Bytes
  import opened Clock
  import opened Wifi

  const NONCE_MS: u32 := 300000
  const TABLE := 8
  const DIGEST_CHARS := 64

  /** The nine parameters of an Authorization header that names each of them once. */
  datatype Params = Params(username: seq<byte>, realm: seq<byte>, nonce: seq<byte>, uri: seq<byte>, response: seq<byte>,
                           algorithm: seq<byte>, qop: seq<byte>, nc: seq<byte>, cnonce: seq<byte>)

  datatype Request = Request(httpMethod: seq<byte>, path: seq<byte>, params: Option<Params>)

  datatype Entry = Entry(cnonce: seq<byte>, count: u32)

  const BLANK_ENTRY := Entry([], 0)

  datatype Auth = Auth(ha1: seq<byte>, nonce: seq<byte>, created: u32, begun: bool, replay: seq<Entry>)

  /** SHA-256 in hexadecimal is any function here, and may fail with an empty text. */
  datatype Setup = Setup(hash: seq<byte> -> seq<byte>, username: seq<byte>, realm: seq<byte>)

  const COLON: seq<byte> := [0x3a]
  const SHA_256: seq<byte> := [0x53, 0x48, 0x41, 0x2d, 0x32, 0x35, 0x36]
  const AUTH: seq<byte> := [0x61, 0x75, 0x74, 0x68]

  function Begin(c: Setup, key: seq<byte>, nonce: seq<byte>, now: u32): Auth {
    Auth(c.hash(c.username + COLON + c.realm + COLON + key), nonce, now, true, seq(TABLE, _ => BLANK_ENTRY))
  }

  predicate Expired(a: Auth, now: u32) {
    !a.begun || Elapsed(now, a.created, NONCE_MS)
  }

  function Pow16(n: nat): nat {
    if n == 0 then 1 else 0x10 * Pow16(n - 1)
  }

  /** The nonce count, most significant digit first; None if a character is no hexadecimal digit. */
  function Count(nc: seq<byte>): (r: Option<nat>)
    ensures r.Some? ==> r.value < Pow16(|nc|)
    decreases |nc|
  {
    if |nc| == 0 then Some(0)
    else
      match (Count(nc[..|nc| - 1]), HexDigit(nc[|nc| - 1]))
      case (Some(high), Some(low)) => Some(high * 0x10 + low)
      case (_, _) => None
  }

  /** Everything but the table: the parameters, and the digest of the request under them. */
  predicate Authentic(c: Setup, a: Auth, r: Request, p: Params) {
    && p.username == c.username && p.realm == c.realm && p.nonce == a.nonce && p.uri == r.path
    && p.algorithm == SHA_256 && p.qop == AUTH && |p.nc| == 8 && |p.cnonce| > 0
    && |Expected(c, a, r, p)| == DIGEST_CHARS && Expected(c, a, r, p) == p.response
  }

  function Expected(c: Setup, a: Auth, r: Request, p: Params): seq<byte> {
    c.hash(a.ha1 + COLON + a.nonce + COLON + p.nc + COLON + p.cnonce + COLON + AUTH + COLON +
           c.hash(r.httpMethod + COLON + r.path))
  }

  /** Where a client nonce is, or would go: its own entry, else the first free one. */
  function Slot(replay: seq<Entry>, cnonce: seq<byte>, from: nat, free: Option<nat>): (r: Option<nat>)
    requires from <= |replay| && (free.Some? ==> free.value < from)
    ensures r.Some? ==> r.value < |replay|
    decreases |replay| - from
  {
    if from == |replay| then free
    else if replay[from].cnonce == cnonce then Some(from)
    else Slot(replay, cnonce, from + 1, if replay[from].count == 0 && free.None? then Some(from) else free)
  }

  function Verify(c: Setup, a: Auth, r: Request, now: u32): (Auth, bool) {
    if Expired(a, now) || |a.ha1| != DIGEST_CHARS || r.params.None? then (a, false)
    else
      var p := r.params.value;
      if !Authentic(c, a, r, p) || Count(p.nc).None? || Count(p.nc) == Some(0) then (a, false)
      else
        assert Pow16(8) == 0x1_0000_0000;
        var count: u32 := Count(p.nc).value;
        match Slot(a.replay, p.cnonce, 0, None)
        case None => (a, false)
        case Some(i) =>
          if count <= a.replay[i].count then (a, false)
          else (a.(replay := a.replay[i := Entry(p.cnonce, count)]), true)
  }

  class DigestAuth {
    const setup: Setup
    const replay: array<Entry>
    var ha1: seq<byte>
    var nonce: seq<byte>
    var created: u32
    var begun: bool

    function Value(): Auth
      reads this, replay
    {
      Auth(ha1, nonce, created, begun, replay[..])
    }

    constructor (setup: Setup)
      ensures this.setup == setup && fresh(replay) && replay.Length == TABLE && !begun
    {
      this.setup := setup;
      replay := new Entry[TABLE](_ => BLANK_ENTRY);
      ha1, nonce, created, begun := [], [], 0, false;
    }

    method BeginNonce(key: seq<byte>, newNonce: seq<byte>, now: u32)
      requires replay.Length == TABLE
      modifies this, replay
      ensures Value() == Begin(setup, key, newNonce, now)
    {
      ha1 := setup.hash(setup.username + COLON + setup.realm + COLON + key);
      nonce, created, begun := newNonce, now, true;
      var i := 0;
      while i < replay.Length
        invariant 0 <= i <= replay.Length
        invariant forall j | 0 <= j < i :: replay[j] == BLANK_ENTRY
        invariant ha1 == setup.hash(setup.username + COLON + setup.realm + COLON + key) && nonce == newNonce &&
            created == now && begun
      {
        replay[i] := BLANK_ENTRY;
        i := i + 1;
      }
      assert replay[..] == seq(TABLE, _ => BLANK_ENTRY);
    }

    method FindSlot(cnonce: seq<byte>) returns (slot: Option<nat>)
      ensures slot == Slot(replay[..], cnonce, 0, None)
    {
      slot := None;
      var i := 0;
      while i < replay.Length
        invariant 0 <= i <= replay.Length && (slot.Some? ==> slot.value < i)
        invariant Slot(replay[..], cnonce, 0, None) == Slot(replay[..], cnonce, i, slot)
      {
        if replay[i].cnonce == cnonce { return Some(i); }
        if replay[i].count == 0 && slot.None? { slot := Some(i); }
        i := i + 1;
      }
    }

    method CountOf(nc: seq<byte>) returns (count: Option<nat>)
      ensures count == Count(nc)
    {
      var n, i := 0, 0;
      while i < |nc|
        invariant 0 <= i <= |nc| && Count(nc[..i]) == Some(n)
      {
        assert nc[..i + 1][..i] == nc[..i];
        if HexDigit(nc[i]).None? {
          NoCount(nc, i);
          return None;
        }
        n := n * 0x10 + HexDigit(nc[i]).value;
        i := i + 1;
      }
      assert nc[..i] == nc;
      return Some(n);
    }

    method VerifyRequest(r: Request, now: u32) returns (ok: bool)
      requires replay.Length == TABLE
      modifies replay
      ensures (Value(), ok) == Verify(setup, old(Value()), r, now)
    {
      hide Authentic, Count, Slot;
      if !begun || Elapsed(now, created, NONCE_MS) || |ha1| != DIGEST_CHARS || r.params.None? { return false; }
      var p := r.params.value;
      var count := CountOf(p.nc);
      if !Authentic(setup, Value(), r, p) || count.None? || count == Some(0) { return false; }
      var slot := FindSlot(p.cnonce);
      if slot.None? || count.value <= replay[slot.value].count { return false; }
      assert count.value < 0x1_0000_0000 by { CountFits(setup, Value(), r, p); }
      replay[slot.value] := Entry(p.cnonce, count.value);
      return true;
    }
  }

  lemma CountFits(c: Setup, a: Auth, r: Request, p: Params)
    requires Authentic(c, a, r, p) && Count(p.nc).Some?
    ensures Count(p.nc).value < 0x1_0000_0000
  {
    assert Pow16(8) == 0x1_0000_0000;
  }

  lemma {:induction false} NoCount(nc: seq<byte>, i: nat)
    requires i < |nc| && HexDigit(nc[i]).None?
    ensures Count(nc) == None
    decreases |nc|
  {
    if i < |nc| - 1 { NoCount(nc[..|nc| - 1], i); }
  }

  // ---- Between two calls of begin ---------------------------------------------------------------------------

  /** Used entries first, each with a nonce of its own, then blank ones. */
  predicate Prefix(replay: seq<Entry>, n: nat) {
    && n <= |replay| == TABLE
    && (forall i | 0 <= i < n :: replay[i].count > 0 && |replay[i].cnonce| > 0)
    && (forall i | n <= i < |replay| :: replay[i] == BLANK_ENTRY)
    && forall i, j | 0 <= i < j < n :: replay[i].cnonce != replay[j].cnonce
  }

  /** In such a table a nonce has its own entry, or gets the first blank one, or there is no room. */
  lemma {:induction false} SlotFound(replay: seq<Entry>, n: nat, cnonce: seq<byte>, from: nat, free: Option<nat>)
    requires Prefix(replay, n) && |cnonce| > 0 && from <= |replay|
    requires forall i | 0 <= i < from && i < n :: replay[i].cnonce != cnonce
    requires free == if n < from then Some(n) else None
    ensures match Slot(replay, cnonce, from, free)
            case Some(i) => (i < n && replay[i].cnonce == cnonce) || (i == n &&
                forall j | 0 <= j < n :: replay[j].cnonce != cnonce)
            case None => n == TABLE && forall j | 0 <= j < n :: replay[j].cnonce != cnonce
    decreases |replay| - from
  {
    if from < |replay| && replay[from].cnonce != cnonce {
      SlotFound(replay, n, cnonce, from + 1, if replay[from].count == 0 && free.None? then Some(from) else free);
    }
  }

  datatype Call = Call(t: nat, request: Request)

  /** An accepted request. */
  datatype Grant = Grant(t: nat, cnonce: seq<byte>, count: nat)

  function After(c: Setup, a: Auth, calls: seq<Call>): Auth
    decreases |calls|
  {
    if |calls| == 0 then a
    else
      var last := calls[|calls| - 1];
      Verify(c, After(c, a, calls[..|calls| - 1]), last.request, Millis(last.t)).0
  }

  function Granted(c: Setup, a: Auth, call: Call): seq<Grant> {
    if Verify(c, a, call.request, Millis(call.t)).1
    then [Grant(call.t, call.request.params.value.cnonce, Count(call.request.params.value.nc).value)] else []
  }

  function Grants(c: Setup, a: Auth, calls: seq<Call>): seq<Grant>
    decreases |calls|
  {
    if |calls| == 0 then []
    else
      var before := calls[..|calls| - 1];
      Grants(c, a, before) + Granted(c, After(c, a, before), calls[|calls| - 1])
  }

  /** Counts rise for each client nonce. */
  predicate Rising(grants: seq<Grant>) {
    forall i, j | 0 <= i < j < |grants| && grants[i].cnonce == grants[j].cnonce :: grants[i].count < grants[j].count
  }

  /** Every grant is remembered in the table by an entry at least as high. */
  predicate Remembered(grants: seq<Grant>, replay: seq<Entry>, n: nat) {
    forall g | 0 <= g < |grants| :: Holds(replay, n, grants[g])
  }

  predicate Holds(replay: seq<Entry>, n: nat, g: Grant) {
    n <= |replay| && exists i :: 0 <= i < n && replay[i].cnonce == g.cnonce && g.count <= replay[i].count
  }

  /** Entry i took the grant: its own entry with a higher count, or a new one for a nonce not seen before. */
  predicate Placed(replay: seq<Entry>, k: nat, next: seq<Entry>, n: nat, i: nat, cnonce: seq<byte>, count: nat) {
    && k <= |replay| && i < n <= |next| && next[i].cnonce == cnonce && next[i].count == count
    && (i < k ==> replay[i].cnonce == cnonce && replay[i].count < count)
    && (i >= k ==> forall j | 0 <= j < k :: replay[j].cnonce != cnonce)
  }

  lemma VerifyKeepsTable(c: Setup, a: Auth, r: Request, now: u32, n: nat) returns (m: nat)
    requires Prefix(a.replay, n)
    ensures var (next, ok) := Verify(c, a, r, now);
            n <= m && Prefix(next.replay, m) && (!ok ==> next == a) &&
            (next.ha1, next.nonce, next.created, next.begun) == (a.ha1, a.nonce, a.created, a.begun) &&
            (forall i | 0 <= i < n :: next.replay[i].cnonce == a.replay[i].cnonce &&
                a.replay[i].count <= next.replay[i].count) &&
            (ok ==> r.params.Some? && Count(r.params.value.nc).Some? && !Expired(a, now) &&
                    Authentic(c, a, r, r.params.value) &&
                    exists i: nat :: Placed(a.replay, n, next.replay, m, i, r.params.value.cnonce,
                        Count(r.params.value.nc).value))
  {
    hide Count, Expected;
    m := n;
    var (next, ok) := Verify(c, a, r, now);
    if ok {
      var p := r.params.value;
      SlotFound(a.replay, n, p.cnonce, 0, None);
      var i := Slot(a.replay, p.cnonce, 0, None).value;
      if i == n { m := n + 1; }
      assert Placed(a.replay, n, next.replay, m, i, p.cnonce, Count(p.nc).value);
    }
  }

  /** Between two begins: counts accepted for a client nonce rise strictly, so no pair is accepted twice; every one is
      remembered; and all parameters of the authentication stay. */
  lemma {:induction false} NoReplay(c: Setup, a: Auth, calls: seq<Call>) returns (n: nat)
    requires Prefix(a.replay, 0)
    ensures var now := After(c, a, calls); var grants := Grants(c, a, calls);
            Rising(grants) && Prefix(now.replay, n) && Remembered(grants, now.replay, n) &&
            (now.ha1, now.nonce, now.created, now.begun) == (a.ha1, a.nonce, a.created, a.begun)
    decreases |calls|
  {
    hide Verify, Count, Authentic, Expired, Placed;
    n := 0;
    if |calls| > 0 {
      var before, last := calls[..|calls| - 1], calls[|calls| - 1];
      var k := NoReplay(c, a, before);
      var now := After(c, a, before);
      n := VerifyKeepsTable(c, now, last.request, Millis(last.t), k);
      var next, granted := After(c, a, calls).replay, Granted(c, now, last);
      if |granted| == 1 {
        var p := last.request.params.value;
        var i: nat :| Placed(now.replay, k, next, n, i, p.cnonce, Count(p.nc).value);
        assert Placed(now.replay, k, next, n, i, granted[0].cnonce, granted[0].count);
      }
      GrantKeeps(Grants(c, a, before), now.replay, k, next, n, granted);
    }
  }

  lemma GrantKeeps(grants: seq<Grant>, replay: seq<Entry>, k: nat, next: seq<Entry>, n: nat, granted: seq<Grant>)
    requires Rising(grants) && Remembered(grants, replay, k) && k <= |replay| && k <= n <= |next| && |granted| <= 1
    requires forall i | 0 <= i < k :: next[i].cnonce == replay[i].cnonce && replay[i].count <= next[i].count
    requires |granted| == 1 ==>
             exists i: nat :: Placed(replay, k, next, n, i, granted[0].cnonce, granted[0].count)
    requires forall i, j | 0 <= i < j < k :: replay[i].cnonce != replay[j].cnonce
    ensures Rising(grants + granted) && Remembered(grants + granted, next, n)
  {
    var all := grants + granted;
    forall g | 0 <= g < |all|
      ensures Holds(next, n, all[g])
    {
      if g < |grants| {
        assert Holds(replay, k, grants[g]);
        var i :| 0 <= i < k && replay[i].cnonce == grants[g].cnonce && grants[g].count <= replay[i].count;
        assert next[i].cnonce == all[g].cnonce && all[g].count <= next[i].count;
      } else {
        var i: nat :| Placed(replay, k, next, n, i, granted[0].cnonce, granted[0].count);
        assert next[i].cnonce == all[g].cnonce && all[g].count <= next[i].count;
      }
    }
  }

  lemma {:induction false} FewNonces(replay: seq<Entry>, n: nat) returns (seen: set<seq<byte>>)
    requires n <= |replay|
    ensures |seen| <= n && forall i | 0 <= i < n :: replay[i].cnonce in seen
  {
    if n == 0 {
      seen := {};
    } else {
      var before := FewNonces(replay, n - 1);
      seen := before + {replay[n - 1].cnonce};
    }
  }

  lemma {:induction false} GrantsInTime(c: Setup, a: Auth, begun: nat, calls: seq<Call>, g: nat)
    requires Prefix(a.replay, 0) && a.created == Millis(begun) && g < |Grants(c, a, calls)|
    requires begun <= Grants(c, a, calls)[g].t < begun + 0x1_0000_0000
    ensures Grants(c, a, calls)[g].t - begun < NONCE_MS
    decreases |calls|
  {
    hide Verify, Millis, Elapsed, Count, Authentic;
    var before, last := calls[..|calls| - 1], calls[|calls| - 1];
    if g < |Grants(c, a, before)| {
      GrantsInTime(c, a, begun, before, g);
    } else {
      var k := NoReplay(c, a, before);
      var _ := VerifyKeepsTable(c, After(c, a, before), last.request, Millis(last.t), k);
      ElapsedIsSound(last.t, begun, NONCE_MS);
    }
  }

  /** Replay freedom between two calls of begin: accepted counts rise strictly for each client nonce, so no pair is
      accepted twice; at most eight client nonces are ever accepted; and nothing is accepted 300 s after begin, as
      long as the clock has not wrapped since. */
  lemma ReplayFreedom(c: Setup, key: seq<byte>, nonce: seq<byte>, begun: nat, calls: seq<Call>)
    ensures var grants := Grants(c, Begin(c, key, nonce, Millis(begun)), calls);
            Rising(grants) && |set g | g in grants :: g.cnonce| <= TABLE &&
            forall g | g in grants && begun <= g.t < begun + 0x1_0000_0000 :: g.t - begun < NONCE_MS
  {
    hide Verify, Millis, Rising, Grants, After;
    var a := Begin(c, key, nonce, Millis(begun));
    var grants := Grants(c, a, calls);
    var n := NoReplay(c, a, calls);
    var replay := After(c, a, calls).replay;
    var seen := FewNonces(replay, n);
    forall g | g in grants ensures g.cnonce in seen {
      var i :| 0 <= i < |grants| && grants[i] == g;
      assert Holds(replay, n, grants[i]);
    }
    SubsetIsSmall(set g | g in grants :: g.cnonce, seen);
    forall g | g in grants && begun <= g.t < begun + 0x1_0000_0000 ensures g.t - begun < NONCE_MS {
      var i :| 0 <= i < |grants| && grants[i] == g;
      GrantsInTime(c, a, begun, calls, i);
    }
  }

  // ---- What an accepted request proves ----------------------------------------------------------------------

  /** The parts with colons between them. */
  function Joined(parts: seq<seq<byte>>): seq<byte> {
    if |parts| == 0 then [] else if |parts| == 1 then parts[0] else parts[0] + [0x3a] + Joined(parts[1..])
  }

  /** Section 3.4.1 of RFC 7616 for this key and nonce. */
  function Response(c: Setup, key: seq<byte>, nonce: seq<byte>, r: Request, p: Params): seq<byte> {
    c.hash(Joined([c.hash(Joined([c.username, c.realm, key])), nonce, p.nc, p.cnonce, [0x61, 0x75, 0x74, 0x68],
                   c.hash(Joined([r.httpMethod, r.path]))]))
  }

  /** A request that carries the digest of itself under the key, for this user, realm, nonce and path. */
  predicate Signed(c: Setup, key: seq<byte>, nonce: seq<byte>, r: Request) {
    && r.params.Some?
    && var p := r.params.value;
       && p.username == c.username && p.realm == c.realm && p.nonce == nonce && p.uri == r.path
       && p.algorithm == [0x53, 0x48, 0x41, 0x2d, 0x32, 0x35, 0x36] && p.qop == [0x61, 0x75, 0x74, 0x68]
       && |p.nc| == 8 && |p.cnonce| > 0
       && |p.response| == 64 && p.response == Response(c, key, nonce, r, p)
  }

  /** Its count is above all that were granted to its client nonce, which is known or one of the first eight. */
  ghost predicate Fresh(grants: seq<Grant>, p: Params) {
    && Count(p.nc).Some? && Count(p.nc).value > 0
    && (forall i | 0 <= i < |grants| && grants[i].cnonce == p.cnonce :: grants[i].count < Count(p.nc).value)
    && ((exists i :: 0 <= i < |grants| && grants[i].cnonce == p.cnonce) || |Nonces(grants)| < 8)
  }

  function Nonces(grants: seq<Grant>): set<seq<byte>> {
    set i | 0 <= i < |grants| :: grants[i].cnonce
  }

  lemma JoinsAre(c: Setup, key: seq<byte>, nonce: seq<byte>, now: u32, r: Request, p: Params)
    ensures c.hash(Joined([c.username, c.realm, key])) == Begin(c, key, nonce, now).ha1
    ensures Response(c, key, nonce, r, p) == Expected(c, Begin(c, key, nonce, now), r, p)
  {
    var a := Begin(c, key, nonce, now);
    ThreeJoined(c.username, c.realm, key);
    assert Joined([r.httpMethod, r.path]) == r.httpMethod + COLON + r.path by {
      assert [r.httpMethod, r.path][1..] == [r.path];
    }
    SixJoined(a.ha1, nonce, p.nc, p.cnonce, AUTH, c.hash(r.httpMethod + COLON + r.path));
  }

  lemma ThreeJoined(a: seq<byte>, b: seq<byte>, d: seq<byte>)
    ensures Joined([a, b, d]) == a + COLON + b + COLON + d
  {
    assert [a, b, d][1..] == [b, d] && [b, d][1..] == [d];
    assert Joined([b, d]) == b + COLON + d;
    assert a + COLON + (b + COLON + d) == a + COLON + b + COLON + d;
  }

  lemma SixJoined(a: seq<byte>, b: seq<byte>, d: seq<byte>, e: seq<byte>, f: seq<byte>, g: seq<byte>)
    ensures Joined([a, b, d, e, f, g]) == a + COLON + b + COLON + d + COLON + e + COLON + f + COLON + g
  {
    assert [a, b, d, e, f, g][1..] == [b, d, e, f, g] && [b, d, e, f, g][1..] == [d, e, f, g] &&
           [d, e, f, g][1..] == [e, f, g];
    ThreeJoined(e, f, g);
    assert Joined([d, e, f, g]) == d + COLON + (e + COLON + f + COLON + g);
    assert Joined([b, d, e, f, g]) == b + COLON + (d + COLON + (e + COLON + f + COLON + g));
    assert a + COLON + (b + COLON + (d + COLON + (e + COLON + f + COLON + g))) ==
           a + COLON + b + COLON + d + COLON + e + COLON + f + COLON + g;
  }

  /** Every used entry is the last grant of its nonce. */
  ghost predicate Known(grants: seq<Grant>, replay: seq<Entry>, n: nat) {
    n <= |replay| && forall i | 0 <= i < n :: GrantedTo(grants, replay[i])
  }

  ghost predicate GrantedTo(grants: seq<Grant>, e: Entry) {
    exists g :: 0 <= g < |grants| && grants[g].cnonce == e.cnonce && grants[g].count == e.count
  }

  lemma {:induction false} TableIsKnown(c: Setup, a: Auth, calls: seq<Call>) returns (n: nat)
    requires Prefix(a.replay, 0)
    ensures Rising(Grants(c, a, calls)) && Prefix(After(c, a, calls).replay, n)
    ensures Remembered(Grants(c, a, calls), After(c, a, calls).replay, n)
    ensures Known(Grants(c, a, calls), After(c, a, calls).replay, n)
    decreases |calls|
  {
    hide Count, Authentic, Expired, Rising, Remembered, Verify;
    n := NoReplay(c, a, calls);
    if |calls| > 0 {
      var before, last := calls[..|calls| - 1], calls[|calls| - 1];
      var k := TableIsKnown(c, a, before);
      var now := After(c, a, before);
      KnownStays(c, now, last, k, n, Grants(c, a, before));
    }
  }

  lemma KnownStays(c: Setup, now: Auth, last: Call, k: nat, n: nat, grants: seq<Grant>)
    requires Prefix(now.replay, k) && Known(grants, now.replay, k)
    requires var next := Verify(c, now, last.request, Millis(last.t)).0; Prefix(next.replay, n)
    ensures var next := Verify(c, now, last.request, Millis(last.t)).0;
            Known(grants + Granted(c, now, last), next.replay, n)
  {
    hide Count, Expected, Expired;
    var (next, ok) := Verify(c, now, last.request, Millis(last.t));
    var all := grants + Granted(c, now, last);
    if ok {
      var p := last.request.params.value;
      SlotFound(now.replay, k, p.cnonce, 0, None);
    }
    forall i | 0 <= i < n ensures GrantedTo(all, next.replay[i]) {
      if i < k && next.replay[i] == now.replay[i] {
        assert GrantedTo(grants, now.replay[i]);
        var g :| 0 <= g < |grants| && grants[g].cnonce == now.replay[i].cnonce &&
            grants[g].count == now.replay[i].count;
        assert all[g] == grants[g];
      } else {
        assert all[|grants|] == Granted(c, now, last)[0];
      }
    }
  }

  lemma {:induction false} ManyNonces(replay: seq<Entry>, n: nat) returns (seen: set<seq<byte>>)
    requires n <= |replay| && forall i, j | 0 <= i < j < n :: replay[i].cnonce != replay[j].cnonce
    ensures |seen| == n && forall x :: x in seen <==> exists i :: 0 <= i < n && replay[i].cnonce == x
  {
    if n == 0 {
      seen := {};
    } else {
      var before := ManyNonces(replay, n - 1);
      seen := before + {replay[n - 1].cnonce};
    }
  }

  /** The table is full exactly when eight nonces were granted something. */
  lemma NoncesAreEntries(grants: seq<Grant>, replay: seq<Entry>, n: nat)
    requires Prefix(replay, n) && Remembered(grants, replay, n) && Known(grants, replay, n)
    ensures |Nonces(grants)| == n
    ensures forall x :: x in Nonces(grants) <==> exists i :: 0 <= i < n && replay[i].cnonce == x
  {
    var seen := ManyNonces(replay, n);
    forall x ensures x in Nonces(grants) <==> x in seen {
      if x in Nonces(grants) {
        var g :| 0 <= g < |grants| && grants[g].cnonce == x;
        assert Holds(replay, n, grants[g]);
      }
      if x in seen {
        var i :| 0 <= i < n && replay[i].cnonce == x;
        assert GrantedTo(grants, replay[i]);
      }
    }
    assert Nonces(grants) == seen;
  }
  /** Between two begins, a request is accepted if and only if it is signed with the key for the nonce, comes within
      300 s of begin, and is fresh. */
  lemma VerifiesExactly(c: Setup, key: seq<byte>, nonce: seq<byte>, begun: nat, calls: seq<Call>, call: Call)
    requires begun <= call.t < begun + 0x1_0000_0000 && |c.hash(Joined([c.username, c.realm, key]))| == 64
    ensures var a := Begin(c, key, nonce, Millis(begun));
            Verify(c, After(c, a, calls), call.request, Millis(call.t)).1 <==>
            && Signed(c, key, nonce, call.request) && call.t - begun < 300000
            && Fresh(Grants(c, a, calls), call.request.params.value)
  {
    hide Millis, Elapsed, Count, Grants, After, Expected, Joined, Response, Prefix, Fresh, Slot;
    var a := Begin(c, key, nonce, Millis(begun));
    var now, grants := After(c, a, calls), Grants(c, a, calls);
    assert Prefix(a.replay, 0) by { BlankTable(c, key, nonce, Millis(begun)); }
    var n := NoReplay(c, a, calls);
    ElapsedIsSound(call.t, begun, NONCE_MS);
    if call.request.params.Some? {
      var p := call.request.params.value;
      JoinsAre(c, key, nonce, Millis(begun), call.request, p);
      SameExpected(c, a, now, call.request, p);
      if |p.cnonce| > 0 && |p.nc| == 8 { FreshIsPlaced(c, a, calls, p); }
    }
  }

  lemma SameExpected(c: Setup, a: Auth, b: Auth, r: Request, p: Params)
    requires a.ha1 == b.ha1 && a.nonce == b.nonce
    ensures Expected(c, a, r, p) == Expected(c, b, r, p)
  {
  }

  lemma BlankTable(c: Setup, key: seq<byte>, nonce: seq<byte>, now: u32)
    ensures Prefix(Begin(c, key, nonce, now).replay, 0)
  {
  }

  /** Fresh is what the table decides. */
  lemma FreshIsPlaced(c: Setup, a: Auth, calls: seq<Call>, p: Params)
    requires Prefix(a.replay, 0) && |p.cnonce| > 0
    ensures var replay := After(c, a, calls).replay; var slot := Slot(replay, p.cnonce, 0, None);
            Fresh(Grants(c, a, calls), p) <==>
            Count(p.nc).Some? && Count(p.nc).value > 0 && slot.Some? && Count(p.nc).value > replay[slot.value].count
  {
    hide Count, Grants, After, Prefix, Slot, Remembered, Known, Rising, Nonces;
    var replay, grants := After(c, a, calls).replay, Grants(c, a, calls);
    var n := TableIsKnown(c, a, calls);
    SlotIs(replay, n, p.cnonce);
    NoncesAreEntries(grants, replay, n);
    HasNonce(grants, p.cnonce);
    if Count(p.nc).Some? { CountsAreBelow(grants, replay, n, p.cnonce, Count(p.nc).value); }
  }

  lemma HasNonce(grants: seq<Grant>, cnonce: seq<byte>)
    ensures cnonce in Nonces(grants) <==> exists i :: 0 <= i < |grants| && grants[i].cnonce == cnonce
  {
  }

  lemma SlotIs(replay: seq<Entry>, n: nat, cnonce: seq<byte>)
    requires Prefix(replay, n) && |cnonce| > 0
    ensures (forall i, j | 0 <= i < j < n :: replay[i].cnonce != replay[j].cnonce) && n <= |replay| == TABLE
    ensures match Slot(replay, cnonce, 0, None)
            case Some(i) => i < |replay| && ((i < n && replay[i].cnonce == cnonce) ||
                (i == n && replay[i].count == 0 && forall j | 0 <= j < n :: replay[j].cnonce != cnonce))
            case None => n == TABLE && forall j | 0 <= j < n :: replay[j].cnonce != cnonce
  {
    SlotFound(replay, n, cnonce, 0, None);
  }

  /** A count is above all granted ones exactly when it is above the entry's. */
  lemma CountsAreBelow(grants: seq<Grant>, replay: seq<Entry>, n: nat, cnonce: seq<byte>, count: nat)
    requires Remembered(grants, replay, n) && Known(grants, replay, n)
    ensures (forall i | 0 <= i < |grants| && grants[i].cnonce == cnonce :: grants[i].count < count) <==>
            (forall j | 0 <= j < n && replay[j].cnonce == cnonce :: replay[j].count < count)
  {
    if forall j | 0 <= j < n && replay[j].cnonce == cnonce :: replay[j].count < count {
      forall i | 0 <= i < |grants| && grants[i].cnonce == cnonce ensures grants[i].count < count {
        assert Holds(replay, n, grants[i]);
      }
    }
    if forall i | 0 <= i < |grants| && grants[i].cnonce == cnonce :: grants[i].count < count {
      forall j | 0 <= j < n && replay[j].cnonce == cnonce ensures replay[j].count < count {
        assert GrantedTo(grants, replay[j]);
      }
    }
  }

  /** So of two requests that differ in the response only, at most one is ever accepted, whatever came before each. */
  lemma OneResponse(c: Setup, key: seq<byte>, nonce: seq<byte>, begun: nat, before: seq<Call>, first: Call,
                    later: seq<Call>, second: Call)
    requires begun <= first.t < begun + 0x1_0000_0000 && begun <= second.t < begun + 0x1_0000_0000
    requires first.request.params.Some? && second.request.params.Some?
    requires second.request == first.request.(params := Some(first.request.params.value.(response :=
                 second.request.params.value.response)))
    requires second.request != first.request
    ensures var a := Begin(c, key, nonce, Millis(begun));
            !(Verify(c, After(c, a, before), first.request, Millis(first.t)).1 &&
              Verify(c, After(c, a, later), second.request, Millis(second.t)).1)
  {
    hide Millis, Verify, After, Grants, Fresh, Joined;
    if |c.hash(Joined([c.username, c.realm, key]))| == 64 {
      VerifiesExactly(c, key, nonce, begun, before, first);
      VerifiesExactly(c, key, nonce, begun, later, second);
    } else {
      KeyUnusable(c, key, nonce, begun, before, first);
    }
  }

  /** When the key's own digest fails, nothing is accepted. */
  lemma KeyUnusable(c: Setup, key: seq<byte>, nonce: seq<byte>, begun: nat, calls: seq<Call>, call: Call)
    requires |c.hash(Joined([c.username, c.realm, key]))| != 64
    ensures var a := Begin(c, key, nonce, Millis(begun)); !Verify(c, After(c, a, calls), call.request, Millis(call.t)).1
  {
    hide Millis, After, Joined;
    BlankTable(c, key, nonce, Millis(begun));
    var n := NoReplay(c, Begin(c, key, nonce, Millis(begun)), calls);
    JoinsAre(c, key, nonce, Millis(begun), call.request, Params([], [], [], [], [], [], [], [], []));
  }

  lemma {:induction false} SubsetIsSmall<T>(a: set<T>, b: set<T>)
    requires a <= b
    ensures |a| <= |b|
  {
    if a != {} {
      var x :| x in a;
      SubsetIsSmall(a - {x}, b - {x});
    }
  }
}
