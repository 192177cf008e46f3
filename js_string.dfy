/**
 * The JavaScript string built-ins the application relies on, over strings
 * seen as sequences of characters: `trim`, `indexOf`, `startsWith`, `slice`,
 * `split`, `join`, `replace(/c/g, '')` and `Number.prototype.toString(radix)`
 * for integers, with the parser that inverts the latter.
 */
module JsString {
  import opened Wrappers

  type String = seq<char>

  /** The characters `\s` matches and `trim` removes: WhiteSpace and LineTerminator of ECMAScript. */
  predicate IsWhitespace(c: char) {
    || c == '\t' || c == '\n' || c == '\U{B}' || c == '\U{C}' || c == '\r' || c == ' '
    || c == '\U{A0}' || c == '\U{1680}' || ('\U{2000}' <= c <= '\U{200A}')
    || c == '\U{2028}' || c == '\U{2029}' || c == '\U{202F}' || c == '\U{205F}'
    || c == '\U{3000}' || c == '\U{FEFF}'
  }

  /** The characters a regular-expression `.` does not match. */
  predicate IsLineTerminator(c: char) {
    c == '\n' || c == '\r' || c == '\U{2028}' || c == '\U{2029}'
  }

  /** A string `trim` leaves as it is. */
  predicate IsTrimmed(s: String) {
    s == [] || (!IsWhitespace(s[0]) && !IsWhitespace(s[|s| - 1]))
  }

  /** `s` without its leading run of elements satisfying `p`. */
  function DropFront<T>(s: seq<T>, p: T -> bool): (r: seq<T>)
    ensures |r| <= |s| && r == s[|s| - |r|..]
    ensures r == [] || !p(r[0])
    ensures forall i :: 0 <= i < |s| - |r| ==> p(s[i])
  {
    if s != [] && p(s[0]) then
      var r := DropFront(s[1..], p);
      assert forall i :: 1 <= i < |s| - |r| ==> s[i] == s[1..][i - 1];
      r
    else s
  }

  /** `s` without its trailing run of elements satisfying `p`. */
  function DropBack<T>(s: seq<T>, p: T -> bool): (r: seq<T>)
    ensures |r| <= |s| && r == s[..|r|]
    ensures r == [] || !p(r[|r| - 1])
    ensures forall i :: |r| <= i < |s| ==> p(s[i])
  {
    if s != [] && p(s[|s| - 1]) then DropBack(s[..|s| - 1], p) else s
  }

  function TrimStart(s: String): (r: String)
    ensures |r| <= |s| && r == s[|s| - |r|..]
    ensures r == [] || !IsWhitespace(r[0])
    ensures forall i :: 0 <= i < |s| - |r| ==> IsWhitespace(s[i])
  {
    DropFront(s, IsWhitespace)
  }

  function TrimEnd(s: String): (r: String)
    ensures |r| <= |s| && r == s[..|r|]
    ensures r == [] || !IsWhitespace(r[|r| - 1])
    ensures forall i :: |r| <= i < |s| ==> IsWhitespace(s[i])
  {
    DropBack(s, IsWhitespace)
  }

  /** String.prototype.trim: removes the leading and trailing whitespace. */
  function Trim(s: String): (r: String)
    ensures IsTrimmed(r)
    ensures |r| <= |s|
    ensures var k := |s| - |TrimStart(s)|;
      && k + |r| <= |s| && r == s[k..k + |r|]
      && (forall i :: 0 <= i < k ==> IsWhitespace(s[i]))
      && (forall i :: k + |r| <= i < |s| ==> IsWhitespace(s[i]))
  {
    var t := TrimStart(s);
    var r := TrimEnd(t);
    StripBoth(s, t, r, IsWhitespace);
    r
  }

  /**
   * Stripping the characters satisfying `p` from the front of `s` (giving `t`) and then
   * from the back of `t` (giving `r`) leaves the slice of `s` between two runs of them.
   */
  lemma StripBoth<T>(s: seq<T>, t: seq<T>, r: seq<T>, p: T -> bool)
    requires |t| <= |s| && t == s[|s| - |t|..]
    requires t == [] || !p(t[0])
    requires forall i :: 0 <= i < |s| - |t| ==> p(s[i])
    requires |r| <= |t| && r == t[..|r|]
    requires r == [] || !p(r[|r| - 1])
    requires forall i :: |r| <= i < |t| ==> p(t[i])
    ensures r == [] || (!p(r[0]) && !p(r[|r| - 1]))
    ensures var k := |s| - |t|;
      && k + |r| <= |s| && r == s[k..k + |r|]
      && (forall i :: 0 <= i < k ==> p(s[i]))
      && (forall i :: k + |r| <= i < |s| ==> p(s[i]))
  {
    var k := |s| - |t|;
    forall i | k + |r| <= i < |s|
      ensures p(s[i])
    {
      assert s[i] == t[i - k];
    }
  }

  lemma TrimOfTrimmed(s: String)
    requires IsTrimmed(s)
    ensures Trim(s) == s
  {
  }

  /** Trimming yields the empty string exactly for strings made of whitespace only. */
  lemma TrimEmpty(s: String)
    ensures Trim(s) == [] <==> forall i :: 0 <= i < |s| ==> IsWhitespace(s[i])
  {
  }

  /** A string with a non-whitespace character does not trim to nothing. */
  lemma NotBlankAt(s: String, x: nat)
    requires x < |s| && !IsWhitespace(s[x])
    ensures Trim(s) != []
  {
    TrimEmpty(s);
  }

  /** The first position of `c` in `s`, or None (`indexOf` returning -1). */
  function IndexOf(s: String, c: char): (r: Option<nat>)
    ensures r.None? <==> c !in s
    ensures r.Some? ==> r.value < |s| && s[r.value] == c && c !in s[..r.value]
  {
    if s == [] then None
    else if s[0] == c then Some(0)
    else match IndexOf(s[1..], c)
      case None => None
      case Some(i) =>
        assert s[..i + 1] == [s[0]] + s[1..][..i];
        Some(i + 1)
  }

  predicate StartsWith(s: String, prefix: String) {
    |prefix| <= |s| && s[..|prefix|] == prefix
  }

  /** `s.slice(0, n)` for a non-negative n, on strings and arrays alike. */
  function Take<T>(s: seq<T>, n: nat): (r: seq<T>)
    ensures |r| <= n && |r| <= |s| && r == s[..|r|]
    ensures |r| == if |s| <= n then |s| else n
    ensures |s| <= n ==> r == s
  {
    if |s| <= n then s else s[..n]
  }

  /** The part of `s` before the first `c` (all of `s` when there is none). */
  function TakeUntil(s: String, c: char): (r: String)
    ensures c !in r
    ensures |r| <= |s| && r == s[..|r|]
    ensures |r| < |s| ==> s[|r|] == c
  {
    match IndexOf(s, c)
    case None => s
    case Some(i) => s[..i]
  }

  /** `s.split(c)` for a one-character separator. */
  function Split(s: String, sep: char): (parts: seq<String>)
    ensures |parts| >= 1
    ensures forall i :: 0 <= i < |parts| ==> sep !in parts[i]
    decreases |s|
  {
    match IndexOf(s, sep)
    case None => [s]
    case Some(i) => [s[..i]] + Split(s[i + 1..], sep)
  }

  /** `parts.join(sep)`. */
  function Join(parts: seq<String>, sep: String): String
  {
    if |parts| == 0 then []
    else if |parts| == 1 then parts[0]
    else parts[0] + sep + Join(parts[1..], sep)
  }

  /** Splitting and joining back with the same separator gives the original string. */
  lemma {:induction false} JoinSplit(s: String, sep: char)
    ensures Join(Split(s, sep), [sep]) == s
    decreases |s|
  {
    match IndexOf(s, sep)
    case None =>
    case Some(i) =>
      var rest := s[i + 1..];
      var parts := Split(s, sep);
      assert parts == [s[..i]] + Split(rest, sep);
      assert parts[1..] == Split(rest, sep);
      JoinSplit(rest, sep);
      assert Join(parts, [sep]) == s[..i] + [sep] + Join(parts[1..], [sep]);
      assert s == s[..i] + [sep] + rest;
  }

  /** The first `c` after a `c`-free prefix is the one that follows it. */
  lemma IndexOfAfter(prefix: String, c: char, rest: String)
    requires c !in prefix
    ensures IndexOf(prefix + [c] + rest, c) == Some(|prefix|)
  {
    var s := prefix + [c] + rest;
    assert s[|prefix|] == c;
    assert s[..|prefix|] == prefix;
  }

  /** Splitting a join of separator-free parts gives the parts back. */
  lemma {:induction false} SplitJoin(parts: seq<String>, sep: char)
    requires |parts| >= 1
    requires forall i :: 0 <= i < |parts| ==> sep !in parts[i]
    ensures Split(Join(parts, [sep]), sep) == parts
  {
    if |parts| > 1 {
      var rest := Join(parts[1..], [sep]);
      var s := parts[0] + [sep] + rest;
      IndexOfAfter(parts[0], sep, rest);
      assert s[..|parts[0]|] == parts[0];
      assert s[|parts[0]| + 1..] == rest;
      assert Split(s, sep) == [parts[0]] + Split(rest, sep);
      SplitJoin(parts[1..], sep);
      assert parts == [parts[0]] + parts[1..];
    } else {
      assert IndexOf(parts[0], sep).None?;
    }
  }

  /** `s.replace(/c/g, '')`: every `c` removed, the other characters kept in order. */
  function RemoveAll(s: String, c: char): (r: String)
    ensures c !in r
    ensures forall x :: x in r <==> x in s && x != c
    ensures |r| <= |s|
    ensures c !in s ==> r == s
    ensures |s| == 1 ==> r == if s[0] == c then [] else s
  {
    if s == [] then []
    else if s[0] == c then RemoveAll(s[1..], c)
    else [s[0]] + RemoveAll(s[1..], c)
  }

  /** Removal distributes over concatenation: what is kept keeps its order and repeats. */
  lemma {:induction false} RemoveAllAppend(s: String, t: String, c: char)
    ensures RemoveAll(s + t, c) == RemoveAll(s, c) + RemoveAll(t, c)
  {
    if s == [] {
      assert s + t == t;
    } else {
      assert (s + t)[0] == s[0];
      assert (s + t)[1..] == s[1..] + t;
      RemoveAllAppend(s[1..], t, c);
    }
  }

  // ---- Integer rendering: Number.prototype.toString(radix) on integers ----

  /** The digit character for `d` (lower-case letters after 9, as JavaScript writes them). */
  function Digit(d: nat): (c: char)
    requires d < 36
  {
    if d < 10 then ('0' as int + d) as char else ('a' as int + d - 10) as char
  }

  /** The value of a digit character in the given radix, if it is one. */
  function DigitValue(c: char, radix: nat): (r: Option<nat>)
    requires 2 <= radix <= 36
    ensures r.Some? ==> r.value < radix && Digit(r.value) == c
  {
    var v :=
      if '0' <= c <= '9' then c as int - '0' as int
      else if 'a' <= c <= 'z' then c as int - 'a' as int + 10
      else 36;
    if v < radix then Some(v) else None
  }

  lemma DigitRoundTrip(d: nat, radix: nat)
    requires 2 <= radix <= 36 && d < radix
    ensures DigitValue(Digit(d), radix) == Some(d)
  {
  }

  /** Characters that can occur in a rendered integer. */
  predicate IsNumeral(c: char) {
    c == '-' || '0' <= c <= '9' || 'a' <= c <= 'z'
  }

  lemma DivideByRadix(n: nat, radix: nat)
    requires 2 <= radix <= 36 && n >= radix
    ensures 0 < n / radix < n && n % radix < radix
    ensures n == n / radix * radix + n % radix
  {
  }

  function NatToString(n: nat, radix: nat): (r: String)
    requires 2 <= radix <= 36
    ensures |r| >= 1
    ensures forall i :: 0 <= i < |r| ==> DigitValue(r[i], radix).Some?
    decreases n
  {
    if n < radix then
      DigitRoundTrip(n, radix);
      [Digit(n)]
    else
      DivideByRadix(n, radix);
      DigitRoundTrip(n % radix, radix);
      NatToString(n / radix, radix) + [Digit(n % radix)]
  }

  /** `n.toString(radix)` for an integer n: a minus sign, then the digits of |n|. */
  function IntToString(n: int, radix: nat): (r: String)
    requires 2 <= radix <= 36
    ensures |r| >= 1
    ensures forall i :: 0 <= i < |r| ==> IsNumeral(r[i])
  {
    var digits := if n < 0 then NatToString(-n, radix) else NatToString(n, radix);
    assert forall i :: 0 <= i < |digits| ==> IsNumeral(digits[i]) by {
      forall i | 0 <= i < |digits| ensures IsNumeral(digits[i]) {
        var v := DigitValue(digits[i], radix);
        assert Digit(v.value) == digits[i];
      }
    }
    if n < 0 then "-" + digits else digits
  }

  /** Reads a non-empty string of digits in the given radix. */
  function ParseNat(s: String, radix: nat): (r: Option<nat>)
    requires 2 <= radix <= 36
    ensures r.Some? ==> s != []
    decreases |s|
  {
    if s == [] then None
    else
      var last := DigitValue(s[|s| - 1], radix);
      if last.None? then None
      else if |s| == 1 then last
      else match ParseNat(s[..|s| - 1], radix)
        case None => None
        case Some(high) => Some(high * radix + last.value)
  }

  /** Reads an optionally negative integer written in the given radix. */
  function ParseInt(s: String, radix: nat): Option<int>
    requires 2 <= radix <= 36
  {
    if s != [] && s[0] == '-' then
      match ParseNat(s[1..], radix)
      case None => None
      case Some(n) => Some(0 - n)
    else
      match ParseNat(s, radix)
      case None => None
      case Some(n) => Some(n)
  }

  lemma {:induction false} ParseNatToString(n: nat, radix: nat)
    requires 2 <= radix <= 36
    ensures ParseNat(NatToString(n, radix), radix) == Some(n)
    decreases n
  {
    var s := NatToString(n, radix);
    if n >= radix {
      DivideByRadix(n, radix);
      DigitRoundTrip(n % radix, radix);
      ParseNatToString(n / radix, radix);
      assert s[..|s| - 1] == NatToString(n / radix, radix);
    } else {
      DigitRoundTrip(n, radix);
    }
  }

  /** Rendering an integer loses nothing: the text reads back as the same number. */
  lemma IntToStringRoundTrip(n: int, radix: nat)
    requires 2 <= radix <= 36
    ensures ParseInt(IntToString(n, radix), radix) == Some(n)
  {
    if n < 0 {
      ParseNatToString(-n, radix);
      assert IntToString(n, radix)[1..] == NatToString(-n, radix);
    } else {
      ParseNatToString(n, radix);
      assert NatToString(n, radix)[0] != '-';
    }
  }

  /** Two integers with the same rendering are equal. */
  lemma IntToStringInjective(m: int, n: int, radix: nat)
    requires 2 <= radix <= 36
    ensures IntToString(m, radix) == IntToString(n, radix) ==> m == n
  {
    IntToStringRoundTrip(m, radix);
    IntToStringRoundTrip(n, radix);
  }

  /** `.filter(Boolean)` on strings: the non-empty ones, in order. */
  function NonEmpty(ss: seq<String>): (r: seq<String>)
    ensures |r| <= |ss|
    ensures forall x :: x in r <==> x in ss && x != []
    ensures forall i :: 0 <= i < |r| ==> r[i] != []
    ensures (forall i :: 0 <= i < |ss| ==> IsTrimmed(ss[i])) ==> forall i :: 0 <= i < |r| ==> IsTrimmed(r[i])
    ensures |ss| == 1 ==> r == if ss[0] == [] then [] else ss
  {
    if ss == [] then []
    else if ss[0] == [] then NonEmpty(ss[1..])
    else [ss[0]] + NonEmpty(ss[1..])
  }

  /** The filter distributes over concatenation: kept entries keep their order and repeats. */
  lemma {:induction false} NonEmptyAppend(ss: seq<String>, ts: seq<String>)
    ensures NonEmpty(ss + ts) == NonEmpty(ss) + NonEmpty(ts)
  {
    if ss == [] {
      assert ss + ts == ts;
    } else {
      assert (ss + ts)[0] == ss[0];
      assert (ss + ts)[1..] == ss[1..] + ts;
      NonEmptyAppend(ss[1..], ts);
    }
  }

  /** A list without empty strings passes the filter unchanged. */
  lemma {:induction false} NonEmptyKeeps(ss: seq<String>)
    requires forall i :: 0 <= i < |ss| ==> ss[i] != []
    ensures NonEmpty(ss) == ss
  {
    if ss != [] {
      NonEmptyKeeps(ss[1..]);
      assert ss == [ss[0]] + ss[1..];
    }
  }
}
