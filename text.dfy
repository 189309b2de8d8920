/**
 * The string operations the dashboard's matching rules rely on:
 * `toLowerCase` (restricted to ASCII), `trim`, `startsWith`, `includes`,
 * the decimal rendering of a status code in a template string, and
 * `parseInt` of a slider's decimal value.
 */
module Text {
  import opened Wrappers

  /** ASCII lower-casing of one character; every other character is left alone. */
  function LowerChar(c: char): char {
    if 'A' <= c <= 'Z' then (c as int + 32) as char else c
  }

  /** `s.toLowerCase()`, restricted to the ASCII letters. */
  function Lower(s: string): (r: string)
    ensures |r| == |s|
    ensures forall i :: 0 <= i < |s| ==> r[i] == LowerChar(s[i])
  {
    seq(|s|, i requires 0 <= i < |s| => LowerChar(s[i]))
  }

  /** A lower-case letter that a text holds in neither case is missing from its lower-cased form. */
  lemma LowerLacks(s: string, c: char)
    requires 'a' <= c <= 'z' && c !in s && (c as int - 32) as char !in s
    ensures c !in Lower(s)
  {
    forall i | 0 <= i < |s| ensures Lower(s)[i] != c {
      assert s[i] in s;
    }
  }

  /** Lower-casing distributes over concatenation. */
  lemma LowerConcat(a: string, b: string)
    ensures Lower(a + b) == Lower(a) + Lower(b)
  {
  }

  /** The characters `String.prototype.trim` removes: JavaScript's WhiteSpace and LineTerminator. */
  predicate IsSpace(c: char) {
    c == '\t' || c == '\n' || c == '\U{000B}' || c == '\U{000C}' || c == '\r' || c == ' '
    || c == '\U{00A0}' || c == '\U{1680}' || ('\U{2000}' <= c <= '\U{200A}')
    || c == '\U{2028}' || c == '\U{2029}' || c == '\U{202F}' || c == '\U{205F}'
    || c == '\U{3000}' || c == '\U{FEFF}'
  }

  /** Every character of `s` is one `trim` removes. */
  predicate IsBlank(s: string) {
    forall i :: 0 <= i < |s| ==> IsSpace(s[i])
  }

  /** The index of the first non-space at or after `i` (or `|s|`). */
  function SkipSpaces(s: string, i: nat): (k: nat)
    requires i <= |s|
    ensures i <= k <= |s|
    ensures forall m :: i <= m < k ==> IsSpace(s[m])
    ensures k < |s| ==> !IsSpace(s[k])
    decreases |s| - i
  {
    if i < |s| && IsSpace(s[i]) then SkipSpaces(s, i + 1) else i
  }

  /** The end of `s[lo..j]` once its trailing spaces are dropped. */
  function BackSpaces(s: string, lo: nat, j: nat): (k: nat)
    requires lo <= j <= |s|
    ensures lo <= k <= j
    ensures forall m :: k <= m < j ==> IsSpace(s[m])
    ensures k > lo ==> !IsSpace(s[k - 1])
  {
    if j > lo && IsSpace(s[j - 1]) then BackSpaces(s, lo, j - 1) else j
  }

  /** `s.trim()`: `s` without its leading and trailing spaces. */
  function Trim(s: string): (r: string)
    ensures r == [] || (!IsSpace(r[0]) && !IsSpace(r[|r| - 1]))
    ensures r == [] ==> IsBlank(s)
    ensures |r| <= |s|
  {
    var i := SkipSpaces(s, 0);
    s[i..BackSpaces(s, i, |s|)]
  }

  /** Trimming gives the empty string exactly when the input is blank. */
  lemma TrimBlank(s: string)
    ensures Trim(s) == [] <==> IsBlank(s)
  {
    if IsBlank(s) {
      assert SkipSpaces(s, 0) == |s|;
    }
  }

  /** Trimming a string that has spaces only around a non-empty, already-trimmed core gives that core. */
  lemma TrimPadded(pre: string, core: string, post: string)
    requires IsBlank(pre) && IsBlank(post)
    requires core != [] && !IsSpace(core[0]) && !IsSpace(core[|core| - 1])
    ensures Trim(pre + core + post) == core
  {
    var s := pre + core + post;
    assert forall m :: 0 <= m < |pre| ==> s[m] == pre[m];
    assert s[|pre|] == core[0];
    var i := SkipSpaces(s, 0);
    assert i == |pre|;
    assert forall m :: |pre| + |core| <= m < |s| ==> s[m] == post[m - |pre| - |core|];
    assert s[|pre| + |core| - 1] == core[|core| - 1];
    assert BackSpaces(s, i, |s|) == |pre| + |core|;
    assert s[|pre|..|pre| + |core|] == core;
  }

  /** Trimming is idempotent. */
  lemma TrimIdempotent(s: string)
    ensures Trim(Trim(s)) == Trim(s)
  {
    var r := Trim(s);
    if r != [] {
      TrimPadded([], r, []);
      assert [] + r + [] == r;
    }
  }

  /** `s.startsWith(p)`. */
  predicate StartsWith(s: string, p: string) {
    |p| <= |s| && s[..|p|] == p
  }

  /** `t` occurs in `s` starting at index `i`. */
  predicate OccursAt(s: string, t: string, i: int) {
    0 <= i && i + |t| <= |s| && s[i..i + |t|] == t
  }

  /** `s.includes(t)`: `t` is a contiguous substring of `s` (the empty string is in every string). */
  function Includes(s: string, t: string): (r: bool)
    ensures r <==> exists i :: OccursAt(s, t, i)
  {
    if |t| > |s| then
      assert forall i :: !OccursAt(s, t, i);
      false
    else if s[..|t|] == t then
      assert OccursAt(s, t, 0);
      true
    else
      var r := Includes(s[1..], t);
      assert forall i :: OccursAt(s[1..], t, i) <==> OccursAt(s, t, i + 1);
      assert forall i :: OccursAt(s, t, i) ==> i == 0 || OccursAt(s[1..], t, i - 1);
      r
  }

  /** Every character of an included string is a character of the text. */
  lemma IncludedCharsOccur(s: string, t: string, c: char)
    ensures Includes(s, t) && c in t ==> c in s
  {
    if Includes(s, t) && c in t {
      var i :| OccursAt(s, t, i);
      var j :| 0 <= j < |t| && t[j] == c;
      assert s[i..i + |t|][j] == s[i + j];
    }
  }

  /**
   * In `a + [c] + b`, where `a` lacks the first character of `t` and `b`
   * does not start with its second, any occurrence of `t` lies in `b`.
   */
  lemma IncludesPastFirstChar(a: string, c: char, b: string, t: string)
    requires |t| >= 2 && t[0] !in a && (b == [] || b[0] != t[1])
    ensures Includes(a + [c] + b, t) ==> Includes(b, t)
  {
    if Includes(a + [c] + b, t) {
      var i :| OccursAt(a + [c] + b, t, i);
      OccursPastFirstChar(a, c, b, t, i);
    }
  }

  /** The occurrence-level step behind `IncludesPastFirstChar`. */
  lemma OccursPastFirstChar(a: string, c: char, b: string, t: string, i: int)
    requires |t| >= 2 && t[0] !in a && (b == [] || b[0] != t[1])
    requires OccursAt(a + [c] + b, t, i)
    ensures OccursAt(b, t, i - |a| - 1)
  {
    var s := a + [c] + b;
    assert s[i] == t[0] && s[i + 1] == t[1] by {
      assert s[i..i + |t|][0] == s[i] && s[i..i + |t|][1] == s[i + 1];
    }
    assert i >= |a| by {
      assert forall j :: 0 <= j < |a| ==> s[j] == a[j] && a[j] in a;
    }
    assert forall j :: |a| < j < |s| ==> s[j] == b[j - |a| - 1];
    assert i != |a|;
    var k := i - |a| - 1;
    assert s[i..i + |t|] == b[k..k + |t|];
  }

  /** An occurrence survives text added on either side. */
  lemma IncludesExtended(pre: string, s: string, post: string, t: string)
    requires Includes(s, t)
    ensures Includes(pre + s + post, t)
  {
    var i :| OccursAt(s, t, i);
    assert (pre + s + post)[|pre| + i..|pre| + i + |t|] == s[i..i + |t|];
    assert OccursAt(pre + s + post, t, |pre| + i);
  }

  function DigitChar(d: nat): char
    requires d < 10
  {
    "0123456789"[d]
  }

  /** The decimal numeral of `n`, as a template string renders it. */
  function Decimal(n: nat): (r: string)
    ensures r != []
    ensures forall i :: 0 <= i < |r| ==> '0' <= r[i] <= '9'
    ensures |r| > 1 ==> r[0] != '0'
  {
    if n < 10 then [DigitChar(n)] else Decimal(n / 10) + [DigitChar(n % 10)]
  }

  predicate IsDigit(c: char) {
    '0' <= c <= '9'
  }

  /** The value of a run of decimal digits, most significant first. */
  function DigitsValue(s: string): nat
    requires forall i :: 0 <= i < |s| ==> IsDigit(s[i])
  {
    if s == [] then 0 else DigitsValue(s[..|s| - 1]) * 10 + DigitValue(s[|s| - 1])
  }

  function DigitValue(c: char): nat
    requires IsDigit(c)
  {
    c as int - '0' as int
  }

  /** The end of the run of digits that starts at `i`. */
  function DigitRun(s: string, i: nat): (k: nat)
    requires i <= |s|
    ensures i <= k <= |s|
    ensures forall m :: i <= m < k ==> IsDigit(s[m])
    ensures k < |s| ==> !IsDigit(s[k])
    decreases |s| - i
  {
    if i < |s| && IsDigit(s[i]) then DigitRun(s, i + 1) else i
  }

  /**
   * `parseInt(s)` for decimal text: leading white space is skipped, one sign
   * is read, then the longest run of digits; without a digit the result is
   * NaN, here `None`.
   */
  function ParseInt(s: string): (r: Option<int>)
    ensures var i := SkipSpaces(s, 0);
            var j := if i < |s| && (s[i] == '-' || s[i] == '+') then i + 1 else i;
            r.Some? <==> j < |s| && IsDigit(s[j])
  {
    var i := SkipSpaces(s, 0);
    var j := if i < |s| && (s[i] == '-' || s[i] == '+') then i + 1 else i;
    var k := DigitRun(s, j);
    if k == j then None
    else if i < |s| && s[i] == '-' then Some(0 - DigitsValue(s[j..k]))
    else Some(DigitsValue(s[j..k]))
  }

  /** A numeral is read back as the number it renders. */
  lemma {:induction false} DecimalValue(n: nat)
    ensures forall i :: 0 <= i < |Decimal(n)| ==> IsDigit(Decimal(n)[i])
    ensures DigitsValue(Decimal(n)) == n
  {
    var r := Decimal(n);
    if n >= 10 {
      DecimalValue(n / 10);
      assert r[..|r| - 1] == Decimal(n / 10);
    }
  }

  /** `parseInt` of a numeral followed by anything but a digit gives back the number. */
  lemma ParseDecimal(n: nat, rest: string)
    requires rest == [] || !IsDigit(rest[0])
    ensures ParseInt(Decimal(n) + rest) == Some(n)
  {
    var d := Decimal(n);
    var s := d + rest;
    DecimalValue(n);
    assert s[0] == d[0] && !IsSpace(s[0]);
    assert SkipSpaces(s, 0) == 0;
    assert s[0] != '-' && s[0] != '+';
    DigitsAreARun(s, 0, |d|);
    assert s[0..|d|] == d;
    assert ParseInt(s) == Some(DigitsValue(d));
  }

  /** Digits from `i` up to a non-digit (or the end) at `k` form the run that starts at `i`. */
  lemma {:induction false} DigitsAreARun(s: string, i: nat, k: nat)
    requires i <= k <= |s|
    requires forall m :: i <= m < k ==> IsDigit(s[m])
    requires k < |s| ==> !IsDigit(s[k])
    ensures DigitRun(s, i) == k
    decreases k - i
  {
    if i < k {
      DigitsAreARun(s, i + 1, k);
    }
  }
}
