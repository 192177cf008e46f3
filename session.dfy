/**
 * The application's own signed session cookie and OAuth state cookie, and the
 * session table operations built on them: a value is sealed as
 * `value + "." + signature`, where the signature is a 32-bit rolling hash of
 * `value + "." + secret` written in base 36, and an envelope is accepted only
 * when the part after its first '.' equals the signature of the part before it.
 */
module Session {
  import opened Wrappers
  import opened JsString
  import opened Config
  import opened Schema
  import opened SpotifyAuth

  const SESSION_COOKIE: String := "playlistify_session"
  const SESSION_MAX_AGE: int := 60 * 60 * 24 * 30
  const STATE_COOKIE: String := "playlistify_oauth_state"

  /** The shape of `crypto.randomUUID()`: 36 lower-case hex digits and dashes. */
  predicate IsUuid(s: String) {
    |s| == 36 && forall i :: 0 <= i < |s| ==> s[i] == '-' || '0' <= s[i] <= '9' || 'a' <= s[i] <= 'f'
  }

  /** A UUID can be sealed into a cookie and read back: it has no '.' and no ';'. */
  lemma UuidIsCookieSafe(s: String)
    requires IsUuid(s)
    ensures s != [] && '.' !in s && ';' !in s
  {
    assert forall i :: 0 <= i < |s| ==> s[i] != '.' && s[i] != ';';
  }

  /** What a live session yields to its callers. */
  datatype Identity = Identity(userId: String, accessToken: String)

  // ---- 32-bit integer arithmetic of JavaScript ----

  const TWO_31: int := 0x8000_0000
  const TWO_32: int := 0x1_0000_0000

  predicate IsInt32(x: int) {
    -TWO_31 <= x < TWO_31
  }

  /** ToInt32 (section 7.1.6 of ECMA-262) on an integer: the int32 congruent to x modulo 2^32. */
  function ToInt32(x: int): (r: int)
    ensures IsInt32(r)
    ensures (r - x) % TWO_32 == 0
    ensures IsInt32(x) ==> r == x
  {
    var m := x % TWO_32;
    if m >= TWO_31 then m - TWO_32 else m
  }

  /** Two int32 values congruent modulo 2^32 are equal. */
  lemma Int32Unique(a: int, b: int)
    requires IsInt32(a) && IsInt32(b) && (a - b) % TWO_32 == 0
    ensures a == b
  {
    var q := (a - b) / TWO_32;
    assert a - b == TWO_32 * q;
  }

  /** ToInt32 only depends on its argument modulo 2^32. */
  lemma ToInt32Congruent(x: int, y: int)
    requires (x - y) % TWO_32 == 0
    ensures ToInt32(x) == ToInt32(y)
  {
    var p := (ToInt32(x) - x) / TWO_32;
    var q := (ToInt32(y) - y) / TWO_32;
    var k := (x - y) / TWO_32;
    assert ToInt32(x) - ToInt32(y) == TWO_32 * (p - q + k);
    Int32Unique(ToInt32(x), ToInt32(y));
  }

  /** One step of the hash: h * 31 + c, truncated to 32 bits. */
  function HashStep(h: int, c: char): int {
    ToInt32(31 * h + c as int)
  }

  /** The hash `sign` computes, as a left fold over the characters of `data`. */
  function RollingHash(data: String): (h: int)
    ensures IsInt32(h)
  {
    if data == [] then 0 else HashStep(RollingHash(data[..|data| - 1]), data[|data| - 1])
  }

  /** `(h << 5) - h + c` followed by `h & h` is the step `ToInt32(31 * h + c)`. */
  lemma ShiftSubtractStep(h: int, c: char)
    requires IsInt32(h)
    ensures ToInt32(ToInt32(h * 32) - h + c as int) == HashStep(h, c)
  {
    ToInt32Congruent(ToInt32(h * 32) - h + c as int, 31 * h + c as int);
  }

  /** The base-36 signature of `value` under `secret`; it reads back as the hash it renders. */
  function Signature(value: String, secret: String): (sig: String)
    ensures sig != [] && '.' !in sig && ';' !in sig
    ensures ParseInt(sig, 36) == Some(RollingHash(value + "." + secret))
  {
    var sig := IntToString(RollingHash(value + "." + secret), 36);
    assert forall i :: 0 <= i < |sig| ==> IsNumeral(sig[i]);
    IntToStringRoundTrip(RollingHash(value + "." + secret), 36);
    sig
  }

  /** `sign`: the loop of the source, step for step. */
  method Sign(value: String, secret: String) returns (sig: String)
    ensures sig == Signature(value, secret)
  {
    var data := value + "." + secret;
    var h := 0;
    for i := 0 to |data|
      invariant h == RollingHash(data[..i])
    {
      var c := data[i];
      ShiftSubtractStep(h, c);
      assert data[..i + 1][..i] == data[..i];
      h := ToInt32(h * 32) - h + c as int;
      h := ToInt32(h);
    }
    assert data[..|data|] == data;
    sig := IntToString(h, 36);
  }

  // ---- constant-time comparison ----

  /** Bitwise XOR of two non-negative integers. */
  function BitXor(x: nat, y: nat): nat
    decreases x + y
  {
    if x == 0 && y == 0 then 0 else 2 * BitXor(x / 2, y / 2) + (x + y) % 2
  }

  /** Bitwise OR of two non-negative integers. */
  function BitOr(x: nat, y: nat): nat
    decreases x + y
  {
    if x == 0 && y == 0 then 0 else 2 * BitOr(x / 2, y / 2) + (if x % 2 == 1 || y % 2 == 1 then 1 else 0)
  }

  lemma {:induction false} XorZero(x: nat, y: nat)
    ensures BitXor(x, y) == 0 <==> x == y
    decreases x + y
  {
    if x != 0 || y != 0 {
      XorZero(x / 2, y / 2);
    }
  }

  lemma {:induction false} OrZero(x: nat, y: nat)
    ensures BitOr(x, y) == 0 <==> x == 0 && y == 0
    decreases x + y
  {
    if x != 0 || y != 0 {
      OrZero(x / 2, y / 2);
    }
  }

  /** `secureCompare`: ORs together the XOR of every pair of characters; equal iff nothing was set. */
  method SecureCompare(a: String, b: String) returns (equal: bool)
    ensures equal <==> a == b
  {
    if |a| != |b| {
      return false;
    }
    var out: nat := 0;
    for i := 0 to |a|
      invariant out == 0 <==> a[..i] == b[..i]
    {
      var d := BitXor(a[i] as int, b[i] as int);
      XorZero(a[i] as int, b[i] as int);
      OrZero(out, d);
      out := BitOr(out, d);
      assert a[..i + 1] == a[..i] + [a[i]];
      assert b[..i + 1] == b[..i] + [b[i]];
    }
    assert a[..|a|] == a && b[..|b|] == b;
    equal := out == 0;
  }

  // ---- sealed values ----

  /** `value.signature`. */
  function Seal(value: String, secret: String): (envelope: String)
    ensures '.' !in value ==> IndexOf(envelope, '.') == Some(|value|)
    ensures ';' !in value ==> ';' !in envelope
    ensures envelope != []
  {
    var envelope := value + "." + Signature(value, secret);
    assert envelope[..|value|] == value && envelope[|value|] == '.';
    envelope
  }

  /** The value of an envelope whose signature checks out, split at its first '.'. */
  function Unseal(envelope: String, secret: String): (r: Option<String>)
    ensures r.Some? <==>
      && '.' in envelope
      && var d := IndexOf(envelope, '.').value;
         envelope[d + 1..] == Signature(envelope[..d], secret)
    ensures r.Some? ==> '.' !in r.value && Seal(r.value, secret) == envelope
  {
    match IndexOf(envelope, '.')
    case None => None
    case Some(d) =>
      var value := envelope[..d];
      if Signature(value, secret) == envelope[d + 1..] then
        SealOfSplit(envelope, d, secret);
        Some(value)
      else None
  }

  /** An envelope whose tail after the '.' at `d` is the signature of its head is that head, sealed. */
  lemma SealOfSplit(envelope: String, d: nat, secret: String)
    requires d < |envelope| && envelope[d] == '.' && envelope[d + 1..] == Signature(envelope[..d], secret)
    ensures Seal(envelope[..d], secret) == envelope
  {
    assert envelope == envelope[..d] + "." + envelope[d + 1..];
  }

  /** Unsealing `value.sig` checks `sig` against the signature of the '.'-free `value`. */
  lemma UnsealAt(value: String, sig: String, secret: String)
    requires '.' !in value
    ensures Unseal(value + "." + sig, secret) == if sig == Signature(value, secret) then Some(value) else None
  {
    var e := value + "." + sig;
    IndexOfAfter(value, '.', sig);
    assert value + "." + sig == value + ['.'] + sig;
    assert e[..|value|] == value;
    assert e[|value| + 1..] == sig;
  }

  /** Sealing and unsealing with the same secret gives a '.'-free value back. */
  lemma SealUnseal(value: String, secret: String)
    requires '.' !in value
    ensures Unseal(Seal(value, secret), secret) == Some(value)
  {
    UnsealAt(value, Signature(value, secret), secret);
  }

  /** `setStateCookie` and `getSessionCookieValue`, which compute the same envelope. */
  method SealValue(value: String, secret: String) returns (envelope: String)
    ensures envelope == Seal(value, secret)
  {
    var signature := Sign(value, secret);
    envelope := value + "." + signature;
  }

  /** `verifyStateCookie`. */
  method VerifyStateCookie(cookie: String, secret: String) returns (r: Option<String>)
    ensures r == Unseal(cookie, secret)
  {
    var dot := IndexOf(cookie, '.');
    if dot.None? {
      return None;
    }
    var value := cookie[..dot.value];
    var sig := cookie[dot.value + 1..];
    var expected := Sign(value, secret);
    var same := SecureCompare(expected, sig);
    r := if same then Some(value) else None;
  }

  // ---- tampering ----

  lemma Mod32Sum(a: int, b: int)
    requires a % TWO_32 == 0
    ensures (a + b) % TWO_32 == b % TWO_32
  {
    var k := a / TWO_32;
    assert a == TWO_32 * k;
    var q := b / TWO_32;
    assert a + b == TWO_32 * (k + q) + b % TWO_32;
  }

  /** 31 is odd, hence invertible modulo 2^32: 31 * 3186588639 == 1 + 23 * 2^32. */
  lemma ThirtyOneInvertible(d: int)
    ensures (31 * d) % TWO_32 == 0 ==> d % TWO_32 == 0
  {
    var t := (31 * d) / TWO_32;
    var r := (31 * d) % TWO_32;
    assert 31 * d == TWO_32 * t + r;
    assert d == TWO_32 * (3186588639 * t - 23 * d) + 3186588639 * r;
  }

  /** The difference of two hash steps, modulo 2^32. */
  lemma StepDifference(h1: int, c1: char, h2: int, c2: char)
    ensures (HashStep(h1, c1) - HashStep(h2, c2)) % TWO_32 == (31 * (h1 - h2) + c1 as int - c2 as int) % TWO_32
  {
    var x := 31 * h1 + c1 as int;
    var y := 31 * h2 + c2 as int;
    Mod32Sum(HashStep(h1, c1) - x, x - HashStep(h2, c2));
    Mod32Sum(y - HashStep(h2, c2), x - y);
  }

  lemma RollingHashSnoc(s: String, c: char)
    ensures RollingHash(s + [c]) == HashStep(RollingHash(s), c)
  {
    assert (s + [c])[..|s|] == s;
  }

  /** Different characters, hashed onto the same state, give different states. */
  lemma StepSeparates(h: int, a: char, b: char)
    requires a != b
    ensures (HashStep(h, a) - HashStep(h, b)) % TWO_32 != 0
  {
    StepDifference(h, a, h, b);
    assert 31 * (h - h) + a as int - b as int == a as int - b as int;
  }

  /** The same character, hashed onto states that differ modulo 2^32, keeps them apart. */
  lemma StepKeepsApart(hs: int, ht: int, z: char)
    requires (hs - ht) % TWO_32 != 0
    ensures (HashStep(hs, z) - HashStep(ht, z)) % TWO_32 != 0
  {
    StepDifference(hs, z, ht, z);
    assert 31 * (hs - ht) + z as int - z as int == 31 * (hs - ht);
    ThirtyOneInvertible(hs - ht);
  }

  /** Two strings that differ in exactly one character hash differently modulo 2^32. */
  lemma {:induction false} HashSeparatesOneCharChange(p: String, a: char, b: char, q: String)
    requires a != b
    ensures (RollingHash(p + [a] + q) - RollingHash(p + [b] + q)) % TWO_32 != 0
    decreases |q|
  {
    if q == [] {
      assert p + [a] + q == p + [a] && p + [b] + q == p + [b];
      RollingHashSnoc(p, a);
      RollingHashSnoc(p, b);
      StepSeparates(RollingHash(p), a, b);
    } else {
      var q', z := q[..|q| - 1], q[|q| - 1];
      assert p + [a] + q == (p + [a] + q') + [z];
      assert p + [b] + q == (p + [b] + q') + [z];
      RollingHashSnoc(p + [a] + q', z);
      RollingHashSnoc(p + [b] + q', z);
      HashSeparatesOneCharChange(p, a, b, q');
      StepKeepsApart(RollingHash(p + [a] + q'), RollingHash(p + [b] + q'), z);
    }
  }

  /** An envelope whose value was altered in one character, keeping the signature, is rejected. */
  lemma UnsealRejectsOneCharChange(p: String, a: char, b: char, q: String, secret: String)
    requires a != b && '.' !in p && '.' !in q && b != '.'
    ensures Unseal(p + [b] + q + "." + Signature(p + [a] + q, secret), secret) == None
  {
    var value, forged := p + [a] + q, p + [b] + q;
    assert value + "." + secret == p + [a] + (q + "." + secret);
    assert forged + "." + secret == p + [b] + (q + "." + secret);
    HashSeparatesOneCharChange(p, a, b, q + "." + secret);
    assert Signature(value, secret) != Signature(forged, secret) by {
      IntToStringInjective(RollingHash(value + "." + secret), RollingHash(forged + "." + secret), 36);
    }
    assert '.' !in forged;
    UnsealAt(forged, Signature(value, secret), secret);
  }

  // ---- the session cookie ----

  /** `/name[^;]/` matches at position `q` of `header`. */
  predicate CookieMatchesAt(header: String, name: String, q: nat) {
    q + |name| < |header| && header[q..q + |name|] == name && header[q + |name|] != ';'
  }

  /**
   * The capture of `/name=([^;]+)/` on `header`, searching from position `p`: the
   * leftmost `name=` followed by at least one character other than ';', and the
   * longest run of such characters after it.
   */
  function CookieMatchFrom(header: String, name: String, p: nat): (r: Option<String>)
    requires p <= |header|
    ensures r.Some? ==> r.value != [] && ';' !in r.value
    ensures r.None? <==> forall q: nat :: p <= q ==> !CookieMatchesAt(header, name, q)
    ensures r.Some? ==> exists q: nat :: (&& p <= q && CookieMatchesAt(header, name, q)
                                          && (forall q': nat :: p <= q' < q ==> !CookieMatchesAt(header, name, q'))
                                          && r.value == TakeUntil(header[q + |name|..], ';'))
    decreases |header| - p
  {
    if p + |name| >= |header| then None
    else if header[p..p + |name|] == name && header[p + |name|] != ';' then
      assert CookieMatchesAt(header, name, p);
      Some(TakeUntil(header[p + |name|..], ';'))
    else CookieMatchFrom(header, name, p + 1)
  }

  /** `getSessionIdFromCookie`: the sealed value of the first session cookie in the header, unsealed. */
  function SessionIdFromCookie(header: Option<String>, secret: String): (r: Option<String>)
    ensures r.Some? ==> header.Some? && '.' !in r.value && ';' !in r.value
    ensures header.None? || (forall q: nat :: !CookieMatchesAt(header.value, SESSION_COOKIE + "=", q)) ==> r.None?
    ensures header.Some? && CookieMatchFrom(header.value, SESSION_COOKIE + "=", 0).Some? ==>
      r == Unseal(CookieMatchFrom(header.value, SESSION_COOKIE + "=", 0).value, secret)
  {
    if header.None? || header.value == [] then None
    else match CookieMatchFrom(header.value, SESSION_COOKIE + "=", 0)
      case None => None
      case Some(raw) =>
        var r := Unseal(raw, secret);
        assert r.Some? ==> raw[..|r.value|] == r.value;
        r
  }

  /** The session id the callers go on with: an empty id counts as none (`if (!sessionId)`). */
  function SessionKey(header: Option<String>, secret: String): (r: Option<String>)
    ensures r.Some? ==> r.value != [] && SessionIdFromCookie(header, secret) == r
    ensures r.None? ==> SessionIdFromCookie(header, secret) in {None, Some("")}
  {
    var id := SessionIdFromCookie(header, secret);
    if id.Some? && id.value != [] then id else None
  }

  /** A header that starts with the session cookie this application issued yields its id. */
  lemma SessionCookieRoundTrip(id: String, secret: String, rest: String)
    requires '.' !in id && ';' !in id
    requires rest == [] || rest[0] == ';'
    ensures SessionIdFromCookie(Some(SESSION_COOKIE + "=" + Seal(id, secret) + rest), secret) == Some(id)
  {
    CookieMatchAtStart(SESSION_COOKIE + "=", Seal(id, secret), rest);
    SealUnseal(id, secret);
  }

  /** A header that starts with `name` and a ';'-free value yields that value. */
  lemma CookieMatchAtStart(name: String, value: String, rest: String)
    requires value != [] && ';' !in value
    requires rest == [] || rest[0] == ';'
    ensures CookieMatchFrom(name + value + rest, name, 0) == Some(value)
  {
    var header := name + value + rest;
    assert header[0..|name|] == name;
    assert header[|name|..] == value + rest;
    assert header[|name|] == value[0];
    assert value[0] != ';' by { assert value[0] in value; }
    assert (value + rest)[..|value|] == value;
    if ';' in value + rest {
      assert IndexOf(value + rest, ';') == Some(|value|);
    }
  }

  /** `name` occurs in `s` at position `q`. */
  predicate OccursAt(s: String, name: String, q: nat) {
    q + |name| <= |s| && s[q..q + |name|] == name
  }

  /** The capture is taken at the leftmost position, from `p` on, where the pattern matches. */
  lemma {:induction false} LeftmostMatchCaptured(header: String, name: String, p: nat, at: nat)
    requires p <= at && CookieMatchesAt(header, name, at)
    requires forall q: nat :: p <= q < at ==> !CookieMatchesAt(header, name, q)
    ensures CookieMatchFrom(header, name, p) == Some(TakeUntil(header[at + |name|..], ';'))
    decreases at - p
  {
    assert p + |name| < |header|;
    if p < at {
      assert !(header[p..p + |name|] == name && header[p + |name|] != ';') by {
        assert !CookieMatchesAt(header, name, p);
      }
      assert CookieMatchFrom(header, name, p) == CookieMatchFrom(header, name, p + 1);
      LeftmostMatchCaptured(header, name, p + 1, at);
    } else {
      assert header[p..p + |name|] == name && header[p + |name|] != ';';
    }
  }

  /** A ';'-free value followed by nothing or by ';' is cut back to itself. */
  lemma TakeUntilValue(value: String, rest: String)
    requires ';' !in value
    requires rest == [] || rest[0] == ';'
    ensures TakeUntil(value + rest, ';') == value
  {
    assert (value + rest)[..|value|] == value;
    if ';' in value + rest {
      assert IndexOf(value + rest, ';') == Some(|value|);
    }
  }

  /** No match starts inside the cookies before the sought one. */
  lemma NoMatchInOthers(others: String, name: String, value: String, rest: String, q: nat)
    requires ' ' !in name && ';' !in name
    requires others == [] || others[|others| - 1] == ' ' || others[|others| - 1] == ';'
    requires forall q': nat :: !OccursAt(others, name, q')
    requires q < |others|
    ensures !CookieMatchesAt(others + name + value + rest, name, q)
  {
    var header := others + name + value + rest;
    if q + |name| < |header| {
      if q + |name| <= |others| {
        assert header[q..q + |name|] == others[q..q + |name|];
        assert !OccursAt(others, name, q);
      } else {
        var k := |others| - 1 - q;
        assert header[q..q + |name|][k] == others[|others| - 1];
      }
    }
  }

  /** The pattern matches where the sought cookie starts, and its value follows the name. */
  lemma MatchAtSought(others: String, name: String, value: String, rest: String)
    requires value != [] && ';' !in value
    ensures CookieMatchesAt(others + name + value + rest, name, |others|)
    ensures (others + name + value + rest)[|others| + |name|..] == value + rest
  {
    var header := others + name + value + rest;
    var at := |others|;
    assert header[at..at + |name|] == name;
    assert header[at + |name|..] == value + rest;
    assert header[at + |name|] == value[0];
    assert value[0] != ';' by { assert value[0] in value; }
  }

  /**
   * Cookies before the one sought do not disturb the match: when `name` does not occur
   * in them and they end with a separator, the capture is the sought cookie's value.
   */
  lemma CookieMatchAfterOthers(others: String, name: String, value: String, rest: String)
    requires ' ' !in name && ';' !in name
    requires others == [] || others[|others| - 1] == ' ' || others[|others| - 1] == ';'
    requires forall q: nat :: !OccursAt(others, name, q)
    requires value != [] && ';' !in value
    requires rest == [] || rest[0] == ';'
    ensures CookieMatchFrom(others + name + value + rest, name, 0) == Some(value)
  {
    var header := others + name + value + rest;
    var at := |others|;
    forall q: nat | q < at ensures !CookieMatchesAt(header, name, q) {
      NoMatchInOthers(others, name, value, rest, q);
    }
    assert CookieMatchesAt(header, name, at) && header[at + |name|..] == value + rest by {
      MatchAtSought(others, name, value, rest);
    }
    assert CookieMatchFrom(header, name, 0) == Some(TakeUntil(header[at + |name|..], ';')) by {
      LeftmostMatchCaptured(header, name, 0, at);
    }
    assert TakeUntil(value + rest, ';') == value by {
      TakeUntilValue(value, rest);
    }
  }

  /** The session cookie found after other cookies in the header yields its id. */
  lemma SessionCookieAfterOthers(others: String, id: String, secret: String, rest: String)
    requires '.' !in id && ';' !in id
    requires others == [] || others[|others| - 1] == ' ' || others[|others| - 1] == ';'
    requires forall q: nat :: !OccursAt(others, SESSION_COOKIE + "=", q)
    requires rest == [] || rest[0] == ';'
    ensures SessionIdFromCookie(Some(others + (SESSION_COOKIE + "=") + Seal(id, secret) + rest), secret) == Some(id)
  {
    var name := SESSION_COOKIE + "=";
    var header := others + name + Seal(id, secret) + rest;
    assert CookieMatchFrom(header, name, 0) == Some(Seal(id, secret)) by {
      assert ' ' !in name && ';' !in name;
      CookieMatchAfterOthers(others, name, Seal(id, secret), rest);
    }
    assert Unseal(Seal(id, secret), secret) == Some(id) by {
      SealUnseal(id, secret);
    }
  }

  /** The attributes both Set-Cookie texts carry, up to the Max-Age value. */
  const COOKIE_ATTRIBUTES: String := "; Path=/; HttpOnly; SameSite=Lax; Max-Age="

  /** The Set-Cookie text of `buildSessionCookie` for a sealed value. */
  function SessionSetCookie(sealed: String, maxAge: int, secure: bool): String {
    SESSION_COOKIE + "=" + sealed + COOKIE_ATTRIBUTES + IntToString(maxAge, 10)
      + (if secure then "; Secure" else "")
  }

  /** `buildSessionCookie`. */
  method BuildSessionCookie(sessionId: String, secret: String, maxAge: int, secure: bool) returns (cookie: String)
    ensures cookie == SessionSetCookie(Seal(sessionId, secret), maxAge, secure)
  {
    var value := SealValue(sessionId, secret);
    cookie := SESSION_COOKIE + "=" + value + COOKIE_ATTRIBUTES + IntToString(maxAge, 10)
      + (if secure then "; Secure" else "");
  }

  /** Sent back as a Cookie header, a built session cookie carries the session id it was built for. */
  lemma BuiltCookieCarriesId(id: String, secret: String, maxAge: int, secure: bool)
    requires '.' !in id && ';' !in id
    ensures SessionIdFromCookie(Some(SessionSetCookie(Seal(id, secret), maxAge, secure)), secret) == Some(id)
  {
    var rest := COOKIE_ATTRIBUTES + IntToString(maxAge, 10)
      + (if secure then "; Secure" else "");
    assert SessionSetCookie(Seal(id, secret), maxAge, secure) == SESSION_COOKIE + "=" + Seal(id, secret) + rest;
    SessionCookieRoundTrip(id, secret, rest);
  }

  /** `clearSessionCookie`: the session cookie's attributes with an empty value that expires at once. */
  function ClearSessionCookie(): (cookie: String)
    ensures cookie == SessionSetCookie("", 0, false)
  {
    assert Digit(0) == '0';
    assert IntToString(0, 10) == "0";
    SESSION_COOKIE + "=" + COOKIE_ATTRIBUTES + "0"
  }

  // ---- the sessions table ----

  /** The identity of the stored session `key` names, unless it is missing or expired at `now`. */
  function LiveSession(sessions: map<String, SessionRow>, key: Option<String>, now: int): (r: Option<Identity>)
    ensures r.Some? <==> key.Some? && key.value in sessions && now < sessions[key.value].expiresAt
    ensures r.Some? ==> r.value == Identity(sessions[key.value].userId, sessions[key.value].accessToken)
  {
    if key.Some? && key.value in sessions && now < sessions[key.value].expiresAt then
      Some(Identity(sessions[key.value].userId, sessions[key.value].accessToken))
    else None
  }

  /** A request carrying the cookie issued for an unexpired stored session is that session's user. */
  lemma IssuedCookieFindsSession(sessions: map<String, SessionRow>, id: String, secret: String, now: int, rest: String)
    requires id != [] && '.' !in id && ';' !in id
    requires rest == [] || rest[0] == ';'
    requires id in sessions && now < sessions[id].expiresAt
    ensures LiveSession(sessions, SessionKey(Some(SESSION_COOKIE + "=" + Seal(id, secret) + rest), secret), now)
         == Some(Identity(sessions[id].userId, sessions[id].accessToken))
  {
    SessionCookieRoundTrip(id, secret, rest);
  }

  /** `getSessionIdFromCookie`. */
  method GetSessionIdFromCookie(header: Option<String>, secret: String) returns (r: Option<String>)
    ensures r == SessionIdFromCookie(header, secret)
  {
    if header.None? || header.value == [] {
      return None;
    }
    var raw := CookieMatchFrom(header.value, SESSION_COOKIE + "=", 0);
    if raw.None? {
      return None;
    }
    r := VerifyStateCookie(raw.value, secret);
  }

  /** `getSession`: a read-only lookup; an expired session is reported as none. */
  method GetSession(db: Database, header: Option<String>, secret: String, now: int) returns (r: Option<Identity>)
    ensures r == LiveSession(db.sessions, SessionKey(header, secret), now)
  {
    var sessionId := GetSessionIdFromCookie(header, secret);
    if sessionId.None? || sessionId.value == [] {
      return None;
    }
    if sessionId.value !in db.sessions {
      return None;
    }
    var session := db.sessions[sessionId.value];
    if session.expiresAt <= now {
      return None;
    }
    r := Some(Identity(session.userId, session.accessToken));
  }

  /**
   * An expired session `key` after the refresh: with new tokens stored, its access token
   * and expiry replaced and the caller's identity under the new token; when the refresh
   * fails or the update of the row fails (`updateFails`), both caught by the same
   * handler, the row gone.
   */
  function AfterRefresh(sessions: map<String, SessionRow>, key: String, env: Env, now: int,
                        endpoint: TokenRequest -> TokenReply, updateFails: bool)
    : (after: (Option<Identity>, map<String, SessionRow>))
    requires key in sessions
    ensures after.1.Keys <= sessions.Keys
    ensures forall k :: k in sessions && k != key ==> k in after.1 && after.1[k] == sessions[k]
    ensures after.0.Some? <==> key in after.1
    ensures after.0.Some? <==> RefreshAccessToken(env, sessions[key].refreshToken, endpoint).Ok? && !updateFails
    ensures after.0.None? ==> after.1 == sessions - {key}
    ensures after.0.Some? ==>
      after.1 == sessions[key := sessions[key].(
        accessToken := RefreshAccessToken(env, sessions[key].refreshToken, endpoint).value.accessToken,
        expiresAt := now + RefreshAccessToken(env, sessions[key].refreshToken, endpoint).value.expiresIn * 1000)]
    ensures after.0.Some? ==>
      && after.0.value.userId == sessions[key].userId == after.1[key].userId
      && after.0.value.accessToken == after.1[key].accessToken
      && after.1[key].refreshToken == sessions[key].refreshToken
  {
    var row := sessions[key];
    match RefreshAccessToken(env, row.refreshToken, endpoint)
    case Ok(t) =>
      if updateFails then (None, sessions - {key})
      else
        (Some(Identity(row.userId, t.accessToken)),
         sessions[key := row.(accessToken := t.accessToken, expiresAt := now + t.expiresIn * 1000)])
    case Err(_) => (None, sessions - {key})
  }

  /**
   * `getSessionWithRefresh`: a live session is returned as it is; an expired one is
   * refreshed at the token endpoint and updated, or deleted when the refresh or the
   * update fails.
   */
  method GetSessionWithRefresh(db: Database, header: Option<String>, secret: String, env: Env,
                               now: int, endpoint: TokenRequest -> TokenReply, updateFails: bool)
    returns (r: Option<Identity>)
    requires db.Valid()
    modifies db
    ensures db.Valid()
    ensures db.users == old(db.users) && db.blocked == old(db.blocked) && db.nextBlockedId == old(db.nextBlockedId)
    ensures old(LiveSession(db.sessions, SessionKey(header, secret), now)).Some? ==>
      r == old(LiveSession(db.sessions, SessionKey(header, secret), now)) && db.sessions == old(db.sessions)
    ensures var key := SessionKey(header, secret);
      key.None? || key.value !in old(db.sessions) ==> r.None? && db.sessions == old(db.sessions)
    ensures var key := SessionKey(header, secret);
      key.Some? && key.value in old(db.sessions) && old(db.sessions)[key.value].expiresAt <= now ==>
        (r, db.sessions) == AfterRefresh(old(db.sessions), key.value, env, now, endpoint, updateFails)
  {
    ghost var key := SessionKey(header, secret);
    var sessionId := GetSessionIdFromCookie(header, secret);
    if sessionId.None? || sessionId.value == [] {
      assert key.None?;
      return None;
    }
    assert key == sessionId;
    if sessionId.value !in db.sessions {
      return None;
    }
    var session := db.sessions[sessionId.value];
    if session.expiresAt <= now {
      r := RefreshSession(db, sessionId.value, env, now, endpoint, updateFails);
      return;
    }
    assert LiveSession(db.sessions, key, now) == Some(Identity(session.userId, session.accessToken));
    r := Some(Identity(session.userId, session.accessToken));
  }

  /**
   * The expired branch: refresh the stored session `key` and update its tokens, or
   * delete it when the refresh fails or the update does (`updateFails`).
   */
  method RefreshSession(db: Database, key: String, env: Env, now: int, endpoint: TokenRequest -> TokenReply,
                        updateFails: bool)
    returns (r: Option<Identity>)
    requires db.Valid() && key in db.sessions
    modifies db
    ensures db.Valid()
    ensures db.users == old(db.users) && db.blocked == old(db.blocked) && db.nextBlockedId == old(db.nextBlockedId)
    ensures (r, db.sessions) == AfterRefresh(old(db.sessions), key, env, now, endpoint, updateFails)
  {
    var session := db.sessions[key];
    var refreshed := RefreshAccessToken(env, session.refreshToken, endpoint);
    if refreshed.Ok? && !updateFails {
      var expiresAt := now + refreshed.value.expiresIn * 1000;
      db.UpdateSessionTokens(key, refreshed.value.accessToken, expiresAt);
      r := Some(Identity(session.userId, refreshed.value.accessToken));
    } else {
      db.DeleteSession(key);
      r := None;
    }
  }

  /**
   * `createSession`: a row under a fresh id, expiring `expiresInSeconds` after `now`.
   * The foreign key on `user_id` rejects (None) a user that does not exist.
   */
  method CreateSession(db: Database, userId: String, accessToken: String, refreshToken: String,
                       expiresInSeconds: int, now: int, freshId: String)
    returns (id: Option<String>)
    requires db.Valid()
    requires freshId !in db.sessions
    modifies db
    ensures db.Valid()
    ensures id.Some? <==> userId in old(db.users)
    ensures id.Some? ==>
      && id.value == freshId
      && db.sessions == old(db.sessions)[freshId := SessionRow(userId, accessToken, refreshToken, now + expiresInSeconds * 1000)]
    ensures id.None? ==> db.sessions == old(db.sessions)
    ensures db.users == old(db.users) && db.blocked == old(db.blocked) && db.nextBlockedId == old(db.nextBlockedId)
  {
    if userId !in db.users {
      return None;
    }
    var expiresAt := now + expiresInSeconds * 1000;
    db.InsertSession(freshId, SessionRow(userId, accessToken, refreshToken, expiresAt));
    id := Some(freshId);
  }
}
