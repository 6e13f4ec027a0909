/**
 * The few Python built-ins the bot's core relies on, written out so that
 * their edge cases are part of the model: `str.isspace`/`str.strip`,
 * `str.join`, `str.replace`, `str(int)` and `int(str)`, plus the two
 * wrappers used everywhere for "maybe a value" and "returned or raised".
 */
module Builtins {

  datatype Option<+T> = None | Some(value: T) {
    /** `d.get(key, default)` once the key lookup has produced this option. */
    function GetOr(default: T): T {
      match this
      case Some(v) => v
      case None => default
    }
  }

  /** How a Python call ends: it returns a value, or it raises. */
  datatype Outcome<+T> = Returned(value: T) | Raised

  /** Python `bytes`. */
  type Bytes = seq<bv8>

  // ---------------------------------------------------------------------
  // Whitespace and strip

  /**
   * `c.isspace()` in Python 3, which is also what `\s` matches in a `str`
   * pattern of the `re` module and what `str.strip()` removes.
   */
  predicate IsSpace(c: char) {
    || c == ' '
    || ('\t' <= c <= '\r')
    || ('\U{1C}' <= c <= '\U{1F}')
    || c == '\U{85}' || c == '\U{A0}' || c == '\U{1680}'
    || ('\U{2000}' <= c <= '\U{200A}')
    || c == '\U{2028}' || c == '\U{2029}' || c == '\U{202F}' || c == '\U{205F}'
    || c == '\U{3000}'
  }

  predicate AllSpace(s: string) {
    forall k :: 0 <= k < |s| ==> IsSpace(s[k])
  }

  /** `r` occurs in `s` as one contiguous piece. */
  ghost predicate IsSlice(r: string, s: string) {
    exists a, b :: 0 <= a <= b <= |s| && r == s[a..b]
  }

  lemma SliceOfSlice(r: string, s: string, t: string)
    requires IsSlice(r, s) && IsSlice(s, t)
    ensures IsSlice(r, t)
  {
    var a, b :| 0 <= a <= b <= |s| && r == s[a..b];
    var c, d :| 0 <= c <= d <= |t| && s == t[c..d];
    assert r == t[c + a..c + b] by {
      forall k | 0 <= k < b - a ensures r[k] == t[c + a + k] {
        assert r[k] == s[a + k];
      }
    }
  }

  /** Neither end of `s` is whitespace. */
  predicate Trimmed(s: string) {
    s == [] || (!IsSpace(s[0]) && !IsSpace(s[|s| - 1]))
  }

  /** Only whitespace lies in `s` before index `a` and from index `b` on. */
  predicate SpaceOutside(s: string, a: int, b: int) {
    && 0 <= a <= b <= |s|
    && (forall k :: 0 <= k < a ==> IsSpace(s[k]))
    && (forall k :: b <= k < |s| ==> IsSpace(s[k]))
  }

  /**
   * What `s.strip()` promises: `r` is `s` with a whitespace prefix and a
   * whitespace suffix removed, and no whitespace is left at either end.
   */
  ghost predicate IsStripOf(r: string, s: string) {
    && Trimmed(r)
    && exists a, b :: SpaceOutside(s, a, b) && r == s[a..b]
  }

  /** The first index at or after `i` that does not hold whitespace. */
  function SkipSpaces(s: string, i: nat): (j: nat)
    requires i <= |s|
    ensures i <= j <= |s|
    ensures forall k :: i <= k < j ==> IsSpace(s[k])
    ensures j == |s| || !IsSpace(s[j])
    decreases |s| - i
  {
    if i == |s| || !IsSpace(s[i]) then i else SkipSpaces(s, i + 1)
  }

  /** The smallest `i >= lo` such that `s[i..j]` is all whitespace. */
  function SkipSpacesBack(s: string, lo: nat, j: nat): (i: nat)
    requires lo <= j <= |s|
    ensures lo <= i <= j
    ensures forall k :: i <= k < j ==> IsSpace(s[k])
    ensures i == lo || !IsSpace(s[i - 1])
    decreases j
  {
    if j == lo || !IsSpace(s[j - 1]) then j else SkipSpacesBack(s, lo, j - 1)
  }

  /** Python `s.strip()`. */
  function Strip(s: string): (r: string)
    ensures IsStripOf(r, s)
    ensures IsSlice(r, s)
  {
    var a := SkipSpaces(s, 0);
    var b := SkipSpacesBack(s, a, |s|);
    assert SpaceOutside(s, a, b);
    s[a..b]
  }

  /** Any whitespace-bounded, trimmed piece of `s` is the one `Strip` finds. */
  lemma StripBoundsAreStrip(s: string, a: int, b: int)
    requires SpaceOutside(s, a, b) && Trimmed(s[a..b])
    ensures s[a..b] == Strip(s)
  {
    var a0 := SkipSpaces(s, 0);
    var b0 := SkipSpacesBack(s, a0, |s|);
    if a == b {
      // all of s is whitespace
      assert a0 == |s|;
    } else {
      assert s[a..b][0] == s[a] && s[a..b][b - a - 1] == s[b - 1];
      assert a0 == a;
      assert b0 == b;
    }
  }

  /** `IsStripOf` pins its result down: strip has exactly one answer. */
  lemma StripIsUnique(r1: string, r2: string, s: string)
    requires IsStripOf(r1, s) && IsStripOf(r2, s)
    ensures r1 == r2
  {
    var a1, b1 :| SpaceOutside(s, a1, b1) && r1 == s[a1..b1];
    var a2, b2 :| SpaceOutside(s, a2, b2) && r2 == s[a2..b2];
    StripBoundsAreStrip(s, a1, b1);
    StripBoundsAreStrip(s, a2, b2);
  }

  lemma {:induction false} StripOfTrimmed(s: string)
    requires Trimmed(s)
    ensures Strip(s) == s
  {
    assert s[0..|s|] == s;
    StripBoundsAreStrip(s, 0, |s|);
  }

  // ---------------------------------------------------------------------
  // Prefixes, search, join, replace

  predicate StartsWith(s: string, p: string) {
    |p| <= |s| && s[..|p|] == p
  }

  /** `p` occurs in `s` starting at index `i`. */
  predicate OccursAt(s: string, p: string, i: int) {
    0 <= i && i + |p| <= |s| && s[i..i + |p|] == p
  }

  /** Python `p in s`. */
  predicate Contains(s: string, p: string) {
    exists i | 0 <= i <= |s| - |p| :: OccursAt(s, p, i)
  }

  /** `p` occurs inside `b` when `b` sits between any two strings. */
  lemma ContainsInside(a: string, b: string, c: string)
    ensures Contains(a + b + c, b)
  {
    assert (a + b + c)[|a|..|a| + |b|] == b;
    assert OccursAt(a + b + c, b, |a|);
  }

  /** An occurrence in `m`, and `m` in `s`, give an occurrence in `s`. */
  lemma ContainsTransitive(s: string, m: string, p: string)
    requires Contains(s, m) && Contains(m, p)
    ensures Contains(s, p)
  {
    var i :| 0 <= i <= |s| - |m| && OccursAt(s, m, i);
    var j :| 0 <= j <= |m| - |p| && OccursAt(m, p, j);
    var inS, inM := s[i + j..i + j + |p|], m[j..j + |p|];
    forall k | 0 <= k < |p| ensures inS[k] == inM[k] {
      assert s[i..i + |m|][j + k] == m[j + k];
    }
    assert inS == inM;
    assert OccursAt(s, p, i + j);
  }

  /** Every part shows up in the joined string. */
  lemma {:induction false} JoinContainsPart(parts: seq<string>, sep: string, i: nat)
    requires i < |parts|
    ensures Contains(Join(parts, sep), parts[i])
    decreases |parts|
  {
    if |parts| == 1 {
      ContainsInside("", parts[0], "");
      assert "" + parts[0] + "" == parts[0];
    } else if i == 0 {
      ContainsInside("", parts[0], sep + Join(parts[1..], sep));
      assert "" + parts[0] + (sep + Join(parts[1..], sep)) == Join(parts, sep);
    } else {
      JoinContainsPart(parts[1..], sep, i - 1);
      var rest := Join(parts[1..], sep);
      ContainsInside(parts[0] + sep, rest, "");
      assert parts[0] + sep + rest + "" == Join(parts, sep);
      ContainsTransitive(Join(parts, sep), rest, parts[i]);
    }
  }

  /** The first index of `c` in `s`, if any. */
  function IndexOf(s: string, c: char): (r: Option<nat>)
    ensures r.Some? ==> r.value < |s| && s[r.value] == c && c !in s[..r.value]
    ensures r.None? ==> c !in s
  {
    if s == [] then None
    else if s[0] == c then Some(0)
    else
      match IndexOf(s[1..], c)
      case None => None
      case Some(i) => assert s[..i + 1] == [s[0]] + s[1..][..i]; Some(i + 1)
  }

  /** Python `s[:n]` for `n >= 0`. */
  function Take<T>(s: seq<T>, n: nat): (r: seq<T>)
    ensures |r| <= n && |r| <= |s|
    ensures r == s[..|r|]
    ensures n < |s| ==> |r| == n
    ensures |s| <= n ==> r == s
  {
    if n < |s| then s[..n] else s
  }

  /** Python `s[:n]` for any `n`: a negative bound counts from the end. */
  function SliceTo<T>(s: seq<T>, n: int): (r: seq<T>)
    ensures n >= 0 ==> |r| == (if n < |s| then n else |s|)
    ensures n < 0 ==> |r| == (if |s| + n < 0 then 0 else |s| + n)
    ensures |r| <= |s| && r == s[..|r|]
  {
    if n >= 0 then Take(s, n) else if |s| + n < 0 then [] else s[..|s| + n]
  }

  /** Python `sep.join(parts)`. */
  function Join(parts: seq<string>, sep: string): string
  {
    if |parts| == 0 then ""
    else if |parts| == 1 then parts[0]
    else parts[0] + sep + Join(parts[1..], sep)
  }

  /** Python `s.replace(pat, rep)`: occurrences found left to right, never overlapping. */
  function ReplaceAll(s: string, pat: string, rep: string): string
    requires |pat| > 0
    decreases |s|
  {
    if |s| < |pat| then s
    else if s[..|pat|] == pat then rep + ReplaceAll(s[|pat|..], pat, rep)
    else [s[0]] + ReplaceAll(s[1..], pat, rep)
  }

  lemma {:induction false} ReplaceAllUntouched(s: string, pat: string, rep: string)
    requires |pat| > 0
    requires pat[0] !in s
    ensures ReplaceAll(s, pat, rep) == s
    decreases |s|
  {
    if |s| >= |pat| {
      assert s[..|pat|][0] == s[0];
      assert s[0] in s;
      assert forall c :: c in s[1..] ==> c in s;
      ReplaceAllUntouched(s[1..], pat, rep);
    }
  }

  /** Removing every occurrence of `p` from `p + s` leaves `s` when `s` cannot hold `p`. */
  lemma {:induction false} ReplacePrefixOnce(p: string, s: string)
    requires |p| > 0 && p[0] !in s
    ensures ReplaceAll(p + s, p, "") == s
  {
    assert (p + s)[..|p|] == p;
    assert (p + s)[|p|..] == s;
    ReplaceAllUntouched(s, p, "");
  }

  // ---------------------------------------------------------------------
  // Decimal integers: str(int) and int(str)

  predicate IsDigit(c: char) { '0' <= c <= '9' }

  predicate AllDigits(s: string) {
    forall k :: 0 <= k < |s| ==> IsDigit(s[k])
  }

  function DigitChar(d: nat): (c: char)
    requires d < 10
    ensures IsDigit(c)
  {
    ('0' as int + d) as char
  }

  function DigitValue(c: char): nat
    requires IsDigit(c)
  {
    c as int - '0' as int
  }

  /** The value of a string of decimal digits, read left to right. */
  function DigitsValue(s: string): nat
    requires AllDigits(s)
  {
    if s == [] then 0 else DigitsValue(s[..|s| - 1]) * 10 + DigitValue(s[|s| - 1])
  }

  /** Decimal digits of `n` with no leading zero. */
  function NatToString(n: nat): (r: string)
    ensures |r| >= 1 && AllDigits(r)
    decreases n
  {
    if n < 10 then [DigitChar(n)] else NatToString(n / 10) + [DigitChar(n % 10)]
  }

  /** Python `str(n)` for an `int`. */
  function IntToString(n: int): (r: string)
    ensures |r| >= 1 && (IsDigit(r[0]) || r[0] == '-') && IsDigit(r[|r| - 1])
  {
    if n < 0 then "-" + NatToString(-n) else NatToString(n)
  }

  /**
   * The digit part accepted by Python `int(s)` in base 10: digits, with
   * single underscores allowed between two digits.
   */
  predicate DigitGroups(s: string) {
    && |s| > 0 && IsDigit(s[0]) && IsDigit(s[|s| - 1])
    && (forall k :: 0 <= k < |s| ==> IsDigit(s[k]) || s[k] == '_')
    && (forall k :: 0 <= k < |s| - 1 && s[k] == '_' ==> IsDigit(s[k + 1]))
  }

  function DropUnderscores(s: string): (r: string)
    requires forall k :: 0 <= k < |s| ==> IsDigit(s[k]) || s[k] == '_'
    ensures AllDigits(r)
    ensures AllDigits(s) ==> r == s
  {
    if s == [] then []
    else if s[0] == '_' then DropUnderscores(s[1..])
    else [s[0]] + DropUnderscores(s[1..])
  }

  /** The value of an unsigned digit part, or `None` when it is malformed. */
  function ParseDigitGroups(body: string): (r: Option<nat>)
    ensures r.Some? <==> DigitGroups(body)
  {
    if !DigitGroups(body) then None else Some(DigitsValue(DropUnderscores(body)))
  }

  /** One optional sign, then `DigitGroups`; the text is already stripped. */
  function ParseSigned(t: string): (r: Option<int>)
    ensures r.Some? ==> |t| > 0
  {
    if |t| > 0 && t[0] == '-' then
      match ParseDigitGroups(t[1..])
      case None => None
      case Some(v) => Some(-(v as int))
    else if |t| > 0 && t[0] == '+' then
      match ParseDigitGroups(t[1..])
      case None => None
      case Some(v) => Some(v as int)
    else
      match ParseDigitGroups(t)
      case None => None
      case Some(v) => Some(v as int)
  }

  /**
   * Python `int(s)` on ASCII text: surrounding whitespace is ignored, one
   * optional sign, then `DigitGroups`; anything else is `None`, where Python
   * raises `ValueError`. Non-ASCII decimal digits, which Python also reads,
   * are outside this model and give `None` here.
   */
  function ParseInt(s: string): (r: Option<int>)
    ensures r.Some? ==> |Strip(s)| > 0
  {
    ParseSigned(Strip(s))
  }

  lemma {:induction false} DigitsValueOfNat(n: nat)
    ensures DigitsValue(NatToString(n)) == n
    decreases n
  {
    var s := NatToString(n);
    if n >= 10 {
      DigitsValueOfNat(n / 10);
      assert s[..|s| - 1] == NatToString(n / 10);
    }
  }

  /** A plain digit part parses to its value. */
  lemma ParseIntOfDigits(body: string)
    requires DigitGroups(body)
    ensures ParseInt(body) == Some(ParseDigitGroups(body).value as int)
  {
    assert Strip(body) == body by {
      assert Trimmed(body);
      StripOfTrimmed(body);
    }
    assert ParseSigned(body) == Some(ParseDigitGroups(body).value as int) by {
      assert IsDigit(body[0]);
    }
  }

  /** A minus sign before a run of digits parses to the negated value. */
  lemma ParseIntOfNegatedDigits(body: string)
    requires DigitGroups(body)
    ensures ParseInt("-" + body) == Some(-(ParseDigitGroups(body).value as int))
  {
    var s := "-" + body;
    assert Strip(s) == s by {
      assert s[0] == '-' && s[|s| - 1] == body[|body| - 1];
      assert Trimmed(s);
      StripOfTrimmed(s);
    }
    assert ParseSigned(s) == Some(-(ParseDigitGroups(body).value as int)) by {
      assert s[0] == '-' && s[1..] == body;
    }
  }

  /** Reading back what `str(n)` printed gives `n`. */
  lemma {:induction false} ParseIntToString(n: int)
    ensures ParseInt(IntToString(n)) == Some(n)
  {
    var m: nat := if n < 0 then -n else n;
    DigitsValueOfNat(m);
    if n < 0 {
      var body := NatToString(m);
      assert DigitGroups(body);
      ParseIntOfNegatedDigits(body);
      assert ParseDigitGroups(body) == Some(m);
    } else {
      var body := NatToString(m);
      assert DigitGroups(body);
      ParseIntOfDigits(body);
      assert ParseDigitGroups(body) == Some(m);
    }
  }
}
