/**
 * The JavaScript string and number operations the core relies on:
 * `trim`, `toLowerCase`/`toUpperCase` (ASCII letters), `includes`,
 * `startsWith`/`endsWith`, `indexOf`/`lastIndexOf` of a character,
 * `substring(0, n)`, `join`, `padStart`, `split(':')`, `String(n)` for
 * integers and `Number(s)` for integer text.
 */
module JsText {
  import opened Common

  // ---------------------------------------------------------------------
  // Whitespace and trimming
  // ---------------------------------------------------------------------

  /** The WhiteSpace and LineTerminator characters of ECMAScript (the set
      that `String.prototype.trim` removes and that `\s` matches). */
  predicate IsSpace(c: char) {
    c == '\t' || c == '\n' || c == '\U{B}' || c == '\U{C}' || c == '\r' || c == ' '
    || c == '\U{A0}' || c == '\U{1680}' || ('\U{2000}' <= c <= '\U{200A}')
    || c == '\U{2028}' || c == '\U{2029}' || c == '\U{202F}' || c == '\U{205F}'
    || c == '\U{3000}' || c == '\U{FEFF}'
  }

  predicate AllSpace(s: string) {
    forall k :: 0 <= k < |s| ==> IsSpace(s[k])
  }

  /** Number of leading whitespace characters. */
  function LeadingSpaces(s: string): (n: nat)
    ensures n <= |s|
    ensures AllSpace(s[..n])
    ensures n < |s| ==> !IsSpace(s[n])
  {
    if |s| == 0 || !IsSpace(s[0]) then 0
    else
      var n := 1 + LeadingSpaces(s[1..]);
      assert forall k :: 1 <= k < n ==> s[k] == s[1..][k - 1];
      n
  }

  /** Length of `s` without its trailing whitespace. */
  function EndOfText(s: string): (n: nat)
    ensures n <= |s|
    ensures AllSpace(s[n..])
    ensures n > 0 ==> !IsSpace(s[n - 1])
  {
    if |s| == 0 || !IsSpace(s[|s| - 1]) then |s|
    else
      var n := EndOfText(s[..|s| - 1]);
      assert forall k :: n <= k < |s| - 1 ==> s[k] == s[..|s| - 1][k];
      n
  }

  /** `s.trimStart()` */
  function TrimStart(s: string): string {
    s[LeadingSpaces(s)..]
  }

  /** `s.trimEnd()` */
  function TrimEnd(s: string): string {
    s[..EndOfText(s)]
  }

  /** `s.trim()`: the text between the leading and the trailing whitespace. */
  function Trim(s: string): (r: string)
    ensures exists i, j :: 0 <= i <= j <= |s| && r == s[i..j] && AllSpace(s[..i]) && AllSpace(s[j..])
    ensures r != [] ==> !IsSpace(r[0]) && !IsSpace(r[|r| - 1])
    ensures r == [] <==> AllSpace(s)
  {
    var i := LeadingSpaces(s);
    var r := TrimEnd(s[i..]);
    var j := i + EndOfText(s[i..]);
    assert r == s[i..j];
    assert s[j..] == s[i..][EndOfText(s[i..])..];
    assert i < |s| ==> s[i..][0] == s[i];
    assert r == [] ==> i == |s|;
    assert i == |s| ==> forall k :: 0 <= k < |s| ==> s[k] == s[..i][k];
    r
  }

  /** A JavaScript string is "blank" when its trimmed form is empty (falsy). */
  predicate IsBlank(s: string) {
    Trim(s) == ""
  }

  // ---------------------------------------------------------------------
  // Case mapping (ASCII letters; see README)
  // ---------------------------------------------------------------------

  function LowerChar(c: char): char {
    if 'A' <= c <= 'Z' then (c as int + 32) as char else c
  }

  function UpperChar(c: char): char {
    if 'a' <= c <= 'z' then (c as int - 32) as char else c
  }

  /** `s.toLowerCase()` */
  function ToLower(s: string): (r: string)
    ensures |r| == |s|
    ensures forall k :: 0 <= k < |s| ==> r[k] == LowerChar(s[k])
  {
    seq(|s|, k requires 0 <= k < |s| => LowerChar(s[k]))
  }

  /** `s.toUpperCase()` */
  function ToUpper(s: string): (r: string)
    ensures |r| == |s|
    ensures forall k :: 0 <= k < |s| ==> r[k] == UpperChar(s[k])
  {
    seq(|s|, k requires 0 <= k < |s| => UpperChar(s[k]))
  }

  lemma LowerIdempotent(s: string)
    ensures ToLower(ToLower(s)) == ToLower(s)
  {
  }

  lemma UpperIdempotent(s: string)
    ensures ToUpper(ToUpper(s)) == ToUpper(s)
  {
  }

  /** Upper-casing forgets whatever lower-casing changed, and vice versa. */
  lemma UpperOfLower(s: string)
    ensures ToUpper(ToLower(s)) == ToUpper(s)
    ensures ToLower(ToUpper(s)) == ToLower(s)
  {
  }

  // ---------------------------------------------------------------------
  // Prefixes, suffixes and substrings
  // ---------------------------------------------------------------------

  predicate StartsWith(s: string, p: string) {
    |p| <= |s| && s[..|p|] == p
  }

  predicate EndsWith(s: string, p: string) {
    |p| <= |s| && s[|s| - |p|..] == p
  }

  lemma EndsWithAppended(s: string, p: string)
    ensures EndsWith(s + p, p)
  {
    assert (s + p)[|s|..] == p;
  }

  /** `t` occurs in `s` starting at position `i`. */
  predicate OccursAt(s: string, t: string, i: int) {
    0 <= i && i + |t| <= |s| && s[i..i + |t|] == t
  }

  /** `s.includes(t)`: `t` occurs in `s` at some position. */
  predicate Contains(s: string, t: string) {
    exists i :: 0 <= i <= |s| - |t| && OccursAt(s, t, i)
  }

  lemma ContainsItself(t: string)
    ensures Contains(t, t)
  {
    assert OccursAt(t, t, 0);
  }

  lemma ContainsInLeft(a: string, b: string, t: string)
    requires Contains(a, t)
    ensures Contains(a + b, t)
  {
    var i :| 0 <= i <= |a| - |t| && OccursAt(a, t, i);
    assert (a + b)[i..i + |t|] == a[i..i + |t|];
    assert OccursAt(a + b, t, i);
  }

  lemma ContainsInRight(a: string, b: string, t: string)
    requires Contains(b, t)
    ensures Contains(a + b, t)
  {
    var i :| 0 <= i <= |b| - |t| && OccursAt(b, t, i);
    assert (a + b)[|a| + i..|a| + i + |t|] == b[i..i + |t|];
    assert OccursAt(a + b, t, |a| + i);
  }

  /** `t` occurs in `a + t + b`. */
  lemma ContainsInMiddle(a: string, t: string, b: string)
    ensures Contains(a + t + b, t)
  {
    assert (a + t + b)[|a|..|a| + |t|] == t;
    assert OccursAt(a + t + b, t, |a|);
  }

  /** An occurrence inside an occurrence is an occurrence. */
  lemma ContainsTransitive(s: string, u: string, t: string)
    requires Contains(s, u) && Contains(u, t)
    ensures Contains(s, t)
  {
    var i :| 0 <= i <= |s| - |u| && OccursAt(s, u, i);
    var j :| 0 <= j <= |u| - |t| && OccursAt(u, t, j);
    forall k | 0 <= k < |t| ensures s[i + j + k] == t[k] {
      assert u[j..j + |t|][k] == u[j + k];
      assert s[i..i + |u|][j + k] == s[i + j + k];
    }
    assert s[i + j..i + j + |t|] == t;
    assert OccursAt(s, t, i + j);
  }

  /** `t` does not occur when one of its characters is missing from `s`. */
  lemma NotContainsMissingChar(s: string, t: string, k: nat)
    requires k < |t| && t[k] !in s
    ensures !Contains(s, t)
  {
    forall i | 0 <= i <= |s| - |t| ensures !OccursAt(s, t, i) {
      assert s[i..i + |t|][k] == s[i + k];
      assert s[i + k] in s;
    }
  }

  /** `t` does not occur when no occurrence of its first character is
      followed by its second one. */
  lemma NotContainsPair(s: string, t: string)
    requires |t| >= 2
    requires forall i :: 0 <= i < |s| - 1 && s[i] == t[0] ==> s[i + 1] != t[1]
    ensures !Contains(s, t)
  {
    forall i | 0 <= i <= |s| - |t| ensures !OccursAt(s, t, i) {
      assert s[i..i + |t|][0] == s[i] && s[i..i + |t|][1] == s[i + 1];
    }
  }

  /** `s.substring(0, n)` */
  function Take(s: string, n: nat): (r: string)
    ensures |r| == if |s| <= n then |s| else n
    ensures StartsWith(s, r)
    ensures |s| <= n ==> r == s
  {
    if |s| <= n then s else s[..n]
  }

  // ---------------------------------------------------------------------
  // Searching for one character
  // ---------------------------------------------------------------------

  /** `s.indexOf(c)`: the first position of `c`, or -1. */
  function IndexOf(s: string, c: char): (r: int)
    ensures -1 <= r < |s|
    ensures r == -1 <==> c !in s
    ensures r >= 0 ==> s[r] == c && c !in s[..r]
  {
    if |s| == 0 then -1
    else if s[0] == c then 0
    else
      var r := IndexOf(s[1..], c);
      if r == -1 then
        assert forall k :: 0 <= k < |s| ==> k == 0 || s[k] == s[1..][k - 1];
        -1
      else
        assert s[..r + 1] == [s[0]] + s[1..][..r];
        r + 1
  }

  /** `s.lastIndexOf(c)`: the last position of `c`, or -1. */
  function LastIndexOf(s: string, c: char): (r: int)
    ensures -1 <= r < |s|
    ensures r == -1 <==> c !in s
    ensures r >= 0 ==> s[r] == c && c !in s[r + 1..]
  {
    if |s| == 0 then -1
    else if s[|s| - 1] == c then |s| - 1
    else
      var init := s[..|s| - 1];
      var r := LastIndexOf(init, c);
      assert s == init + [s[|s| - 1]];
      if r == -1 then -1
      else
        assert s[r + 1..] == init[r + 1..] + [s[|s| - 1]];
        r
  }

  /** `indexOf` finds no later occurrence than any occurrence there is. */
  lemma {:induction false} IndexOfFirst(s: string, c: char, k: nat)
    requires k < |s| && s[k] == c
    ensures 0 <= IndexOf(s, c) <= k
  {
    if s[0] != c {
      assert s[1..][k - 1] == c;
      IndexOfFirst(s[1..], c, k - 1);
    }
  }

  /** `lastIndexOf` finds no earlier occurrence than any occurrence there is. */
  lemma {:induction false} LastIndexOfLast(s: string, c: char, k: nat)
    requires k < |s| && s[k] == c
    ensures LastIndexOf(s, c) >= k
  {
    if s[|s| - 1] != c {
      assert s[..|s| - 1][k] == c;
      LastIndexOfLast(s[..|s| - 1], c, k);
    }
  }

  /** With no `c` from position `m` on, `lastIndexOf` lies before `m`. */
  lemma {:induction false} LastIndexOfBefore(s: string, c: char, m: nat)
    requires m <= |s|
    requires forall k :: m <= k < |s| ==> s[k] != c
    ensures LastIndexOf(s, c) < m
  {
    if |s| > 0 && s[|s| - 1] != c {
      if m < |s| {
        LastIndexOfBefore(s[..|s| - 1], c, m);
      } else {
        assert LastIndexOf(s, c) < |s|;
      }
    }
  }

  // ---------------------------------------------------------------------
  // Joining, padding, splitting
  // ---------------------------------------------------------------------

  /** `parts.join(sep)` */
  function Join(parts: seq<string>, sep: string): string
    decreases |parts|
  {
    if |parts| == 0 then ""
    else if |parts| == 1 then parts[0]
    else parts[0] + sep + Join(parts[1..], sep)
  }

  /** Every element of the array is a substring of its join. */
  lemma {:induction false} JoinContains(parts: seq<string>, sep: string, k: nat)
    requires k < |parts|
    ensures Contains(Join(parts, sep), parts[k])
    decreases |parts|
  {
    if |parts| == 1 {
      ContainsItself(parts[0]);
    } else if k == 0 {
      ContainsItself(parts[0]);
      ContainsInLeft(parts[0], sep, parts[0]);
      ContainsInLeft(parts[0] + sep, Join(parts[1..], sep), parts[0]);
    } else {
      JoinContains(parts[1..], sep, k - 1);
      ContainsInRight(parts[0] + sep, Join(parts[1..], sep), parts[k]);
    }
  }

  /** `s.padStart(n, c)` for a one-character pad string. */
  function PadStart(s: string, n: nat, c: char): (r: string)
    ensures |r| == if |s| < n then n else |s|
    ensures EndsWith(r, s)
    ensures forall i :: 0 <= i < |r| - |s| ==> r[i] == c
  {
    if |s| >= n then s
    else
      var pad := seq(n - |s|, _ => c);
      assert (pad + s)[|pad|..] == s;
      pad + s
  }

  /** `s.split(sep)[0]`: the text before the first separator. */
  function FirstField(s: string, sep: char): (r: string)
    ensures StartsWith(s, r) && sep !in r
    ensures sep !in s ==> r == s
    ensures sep in s ==> |r| < |s| && s[|r|] == sep
  {
    var i := IndexOf(s, sep);
    if i < 0 then s else s[..i]
  }

  /** `s.split(sep)[1]`: the text between the first and the second
      separator, or `None` (undefined) when there is no separator. */
  function SecondField(s: string, sep: char): (r: Option<string>)
    ensures r == None <==> sep !in s
    ensures r.Some? ==> sep !in r.value
    ensures r.Some? ==> var first := |FirstField(s, sep)|;
                        r.value == FirstField(s[first + 1..], sep)
  {
    var i := IndexOf(s, sep);
    if i < 0 then None else Some(FirstField(s[i + 1..], sep))
  }

  // ---------------------------------------------------------------------
  // Numbers and their decimal text
  // ---------------------------------------------------------------------

  /** JavaScript's `%` with a positive divisor: the remainder of the
      division truncated toward zero, so it takes the sign of the dividend. */
  function Rem(a: int, b: int): (r: int)
    requires b > 0
    ensures a >= 0 ==> 0 <= r < b
    ensures a < 0 ==> -b < r <= 0
  {
    if a >= 0 then a % b else -((-a) % b)
  }

  /** The remainder completes the truncated division: `a` is the
      truncated quotient times `b`, plus the remainder. */
  lemma RemDivision(a: int, b: int)
    requires b > 0
    ensures a == TruncQuot(a, b) * b + Rem(a, b)
  {
    if a < 0 {
      assert -a == (-a) / b * b + (-a) % b;
    }
  }

  /** The quotient of `a / b` truncated toward zero, as `Math.trunc`
      gives it. */
  function TruncQuot(a: int, b: int): int
    requires b > 0
  {
    if a >= 0 then a / b else -((-a) / b)
  }

  predicate IsDigit(c: char) {
    '0' <= c <= '9'
  }

  predicate AllDigits(s: string) {
    forall k :: 0 <= k < |s| ==> IsDigit(s[k])
  }

  function DigitChar(d: nat): (c: char)
    requires d < 10
    ensures IsDigit(c)
  {
    ('0' as int + d) as char
  }

  /** The value of a string of decimal digits. */
  function DigitsValue(s: string): nat
    requires AllDigits(s)
  {
    if |s| == 0 then 0
    else DigitsValue(s[..|s| - 1]) * 10 + (s[|s| - 1] as int - '0' as int)
  }

  /** `String(n)` for a natural number. */
  function NatToString(n: nat): (r: string)
    ensures |r| > 0 && AllDigits(r)
    decreases n
  {
    if n < 10 then [DigitChar(n)] else NatToString(n / 10) + [DigitChar(n % 10)]
  }

  /** `String(n)` for an integer. */
  function IntToString(n: int): (r: string)
    ensures |r| > 0
  {
    if n < 0 then "-" + NatToString(-n) else NatToString(n)
  }

  /**
   * `Number(s)` for the strings the model deals with: surrounding
   * whitespace is ignored, the empty string is 0, an optional sign
   * followed by decimal digits is that integer, and every other string is
   * NaN (`None`).
   */
  function ToNumber(s: string): Option<int> {
    var t := Trim(s);
    if t == "" then Some(0)
    else if AllDigits(t) then Some(DigitsValue(t))
    else if |t| > 1 && (t[0] == '-' || t[0] == '+') && AllDigits(t[1..]) then
      var magnitude: int := DigitsValue(t[1..]);
      Some(if t[0] == '-' then -magnitude else magnitude)
    else None
  }

  lemma {:induction false} DigitsOfNat(n: nat)
    ensures DigitsValue(NatToString(n)) == n
    decreases n
  {
    if n >= 10 {
      DigitsOfNat(n / 10);
      var s := NatToString(n);
      assert s[..|s| - 1] == NatToString(n / 10);
    }
  }

  /** Slices of a suffix are slices of the whole. */
  lemma PrefixOfSuffix<T>(s: seq<T>, i: nat, m: nat)
    requires i + m <= |s|
    ensures s[i..][..m] == s[i..i + m]
  {
  }

  lemma MiddleOfSuffix<T>(s: seq<T>, i: nat, a: nat, b: nat)
    requires a <= b && i + b <= |s|
    ensures s[i..][a..b] == s[i + a..i + b]
  {
  }

  lemma AllSpaceStart(s: string, i: nat)
    requires i <= |s|
    ensures AllSpace(s[..i]) && i > 0 ==> IsSpace(s[0])
  {
    if i > 0 { assert s[..i][0] == s[0]; }
  }

  lemma AllSpaceEnd(s: string, j: nat)
    requires j <= |s|
    ensures AllSpace(s[j..]) && j < |s| ==> IsSpace(s[j])
  {
    if j < |s| { assert s[j..][0] == s[j]; }
  }

  lemma TrimOfNoSpace(s: string)
    requires forall k :: 0 <= k < |s| ==> !IsSpace(s[k])
    ensures Trim(s) == s
  {
    var r := Trim(s);
    var i, j :| 0 <= i <= j <= |s| && r == s[i..j] && AllSpace(s[..i]) && AllSpace(s[j..]);
    AllSpaceStart(s, i);
    AllSpaceEnd(s, j);
  }

  /** Decimal text reads back as its value. */
  lemma NumberOfNat(n: nat)
    ensures ToNumber(NatToString(n)) == Some(n)
  {
    var s := NatToString(n);
    DigitsOfNat(n);
    TrimOfNoSpace(s);
  }

  /** Non-empty decimal digits read as their value. */
  lemma NumberOfDigits(d: string)
    requires AllDigits(d) && d != []
    ensures ToNumber(d) == Some(DigitsValue(d))
  {
    TrimOfNoSpace(d);
  }

  /** A sign before digits leaves no whitespace to trim. */
  lemma SignedDigitsTrimmed(d: string)
    requires AllDigits(d)
    ensures Trim("-" + d) == "-" + d
  {
    var s := "-" + d;
    forall k | 0 <= k < |s| ensures !IsSpace(s[k]) {
      if k > 0 { assert s[k] == d[k - 1]; }
    }
    TrimOfNoSpace(s);
  }

  /** Untrimmable text of a minus sign and digits is a negative number. */
  lemma NumberOfMinus(t: string)
    requires Trim(t) == t && |t| > 1 && t[0] == '-' && AllDigits(t[1..])
    ensures ToNumber(t) == Some(-(DigitsValue(t[1..]) as int))
  {
    assert !IsDigit(t[0]);
  }

  /** A minus sign before decimal text reads back as the negated value. */
  lemma NumberOfNegative(n: nat)
    requires n > 0
    ensures ToNumber("-" + NatToString(n)) == Some(-(n as int))
  {
    var d := NatToString(n);
    var s := "-" + d;
    DigitsOfNat(n);
    SignedDigitsTrimmed(d);
    assert s[1..] == d;
    NumberOfMinus(s);
  }

  /** `Number(String(n)) === n`: the decimal text of an integer reads back
      as that integer. */
  lemma NumberOfString(n: int)
    ensures ToNumber(IntToString(n)) == Some(n)
  {
    if n < 0 {
      NumberOfNegative(-n);
      assert IntToString(n) == "-" + NatToString(-n);
    } else {
      NumberOfNat(n);
      assert IntToString(n) == NatToString(n);
    }
  }
}
