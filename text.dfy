/**
 * String behaviour the source relies on: ASCII case folding (`toLowerCase`),
 * JavaScript white space (`trim`, the `\s` class), `includes`/`startsWith`,
 * `${n}` for natural numbers and `padStart(2, '0')`.
 */
module Text {
  import opened Seqs

  // ---------------------------------------------------------------- case

  function LowerChar(c: char): char {
    if 'A' <= c <= 'Z' then (c as int + 32) as char else c
  }

  predicate IsUpper(c: char) { 'A' <= c <= 'Z' }

  /** `toLowerCase`, restricted to ASCII letters. */
  function Lower(s: string): (r: string)
    ensures |r| == |s|
    ensures forall i :: 0 <= i < |s| ==> r[i] == LowerChar(s[i])
  {
    seq(|s|, i requires 0 <= i < |s| => LowerChar(s[i]))
  }

  /** A string that lower-casing leaves unchanged. */
  predicate IsLowerText(s: string) {
    forall i :: 0 <= i < |s| ==> !IsUpper(s[i])
  }

  lemma LowerIsLower(s: string)
    ensures IsLowerText(Lower(s))
  {
  }

  lemma LowerOfLowerText(s: string)
    requires IsLowerText(s)
    ensures Lower(s) == s
  {
  }

  lemma LowerIdempotent(s: string)
    ensures Lower(Lower(s)) == Lower(s)
  {
    LowerIsLower(s);
    LowerOfLowerText(Lower(s));
  }

  lemma LowerTextSlice(s: string, i: nat, j: nat)
    requires IsLowerText(s) && i <= j <= |s|
    ensures IsLowerText(s[i..j])
  {
  }

  // ---------------------------------------------------------------- search

  /** `s.includes(sub)`. */
  predicate Contains(s: string, sub: string) {
    sub <= s || (s != [] && Contains(s[1..], sub))
  }

  predicate OccursAt(s: string, sub: string, i: int) {
    0 <= i <= |s| - |sub| && s[i..i + |sub|] == sub
  }

  /** `includes` holds exactly when `sub` occurs at some position of `s`. */
  lemma ContainsAt(s: string, sub: string)
    ensures Contains(s, sub) <==> exists i :: OccursAt(s, sub, i)
  {
    if Contains(s, sub) {
      var i := ContainsSomewhere(s, sub);
    }
    if exists i :: OccursAt(s, sub, i) {
      var i :| OccursAt(s, sub, i);
      OccursContains(s, sub, i);
    }
  }

  /** A position where `sub` occurs in a string that contains it. */
  lemma {:induction false} ContainsSomewhere(s: string, sub: string) returns (i: int)
    requires Contains(s, sub)
    ensures OccursAt(s, sub, i)
  {
    if sub <= s {
      i := 0;
      assert s[0..|sub|] == sub;
    } else {
      var k := ContainsSomewhere(s[1..], sub);
      i := k + 1;
      assert s[i..i + |sub|] == s[1..][k..k + |sub|];
    }
  }

  /** A string contains every text occurring in it. */
  lemma {:induction false} OccursContains(s: string, sub: string, i: int)
    requires OccursAt(s, sub, i)
    ensures Contains(s, sub)
    decreases i
  {
    if i == 0 {
      assert s[..|sub|] == sub;
    } else {
      assert s[1..][i - 1..i - 1 + |sub|] == s[i..i + |sub|];
      OccursContains(s[1..], sub, i - 1);
    }
  }

  // ---------------------------------------------------------------- white space

  /** The characters `trim` removes and `\s` matches: ECMAScript's WhiteSpace and LineTerminator code points. */
  const JsSpaces: set<char> := {
    ' ', '\t', '\n', '\r', '\U{000B}', '\U{000C}', '\U{00A0}', '\U{1680}',
    '\U{2000}', '\U{2001}', '\U{2002}', '\U{2003}', '\U{2004}', '\U{2005}', '\U{2006}',
    '\U{2007}', '\U{2008}', '\U{2009}', '\U{200A}',
    '\U{2028}', '\U{2029}', '\U{202F}', '\U{205F}', '\U{3000}', '\U{FEFF}'
  }

  predicate IsJsSpace(c: char) {
    c in JsSpaces
  }

  predicate AllSpace(s: string) {
    forall i :: 0 <= i < |s| ==> IsJsSpace(s[i])
  }

  /** Where the run of white space in `s` starting at `i` ends. */
  function SpaceEnd(s: string, i: nat): (k: nat)
    requires i <= |s|
    ensures i <= k <= |s|
    ensures forall m :: i <= m < k ==> IsJsSpace(s[m])
    ensures k == |s| || !IsJsSpace(s[k])
    decreases |s| - i
  {
    if i < |s| && IsJsSpace(s[i]) then SpaceEnd(s, i + 1) else i
  }

  /** Where the run of white space in `s[lo..j]` ending at `j` begins. */
  function SpaceStart(s: string, lo: nat, j: nat): (k: nat)
    requires lo <= j <= |s|
    ensures lo <= k <= j
    ensures forall m :: k <= m < j ==> IsJsSpace(s[m])
    ensures k == lo || !IsJsSpace(s[k - 1])
  {
    if lo < j && IsJsSpace(s[j - 1]) then SpaceStart(s, lo, j - 1) else j
  }

  /** `String.prototype.trim`: what lies between the leading and the trailing white space. */
  function Trim(s: string): string {
    var i := SpaceEnd(s, 0);
    s[i..SpaceStart(s, i, |s|)]
  }

  /**
   * `trim` keeps a contiguous middle part of the string that neither starts
   * nor ends with white space, and removes only white space around it.
   */
  lemma TrimSlice(s: string) returns (i: nat, j: nat)
    ensures i <= j <= |s| && Trim(s) == s[i..j]
    ensures forall k :: 0 <= k < i ==> IsJsSpace(s[k])
    ensures forall k :: j <= k < |s| ==> IsJsSpace(s[k])
    ensures Trim(s) == [] || (!IsJsSpace(Trim(s)[0]) && !IsJsSpace(Trim(s)[|Trim(s)| - 1]))
  {
    i := SpaceEnd(s, 0);
    j := SpaceStart(s, i, |s|);
    if i < j {
      assert Trim(s)[0] == s[i];
      assert Trim(s)[|Trim(s)| - 1] == s[j - 1];
    }
  }

  /** A string that neither starts nor ends with white space is its own trimmed form. */
  lemma TrimUnpadded(t: string)
    requires t == [] || (!IsJsSpace(t[0]) && !IsJsSpace(t[|t| - 1]))
    ensures Trim(t) == t
  {
    assert SpaceEnd(t, 0) == 0;
    assert SpaceStart(t, 0, |t|) == |t|;
    assert t[0..|t|] == t;
  }

  /** A string is blank after trimming exactly when it is all white space. */
  lemma TrimEmptyIff(s: string)
    ensures Trim(s) == [] <==> AllSpace(s)
  {
    var i, j := TrimSlice(s);
    if AllSpace(s) {
      assert SpaceEnd(s, 0) == |s|;
    }
  }

  lemma TrimIdempotent(s: string)
    ensures Trim(Trim(s)) == Trim(s)
  {
    var i, j := TrimSlice(s);
    TrimUnpadded(Trim(s));
  }

  lemma LowerTextTrim(s: string)
    requires IsLowerText(s)
    ensures IsLowerText(Trim(s))
  {
    var i, j := TrimSlice(s);
    LowerTextSlice(s, i, j);
  }

  // ---------------------------------------------------------------- numbers

  predicate IsDigit(c: char) { '0' <= c <= '9' }

  predicate AllDigits(s: string) {
    forall i :: 0 <= i < |s| ==> IsDigit(s[i])
  }

  function DigitChar(d: nat): (c: char)
    requires d < 10
    ensures IsDigit(c)
  {
    ('0' as int + d) as char
  }

  /** `${n}` for a natural number: its decimal digits, without leading zeros. */
  function DecimalString(n: nat): (r: string)
    ensures |r| >= 1 && AllDigits(r)
  {
    if n < 10 then [DigitChar(n)] else DecimalString(n / 10) + [DigitChar(n % 10)]
  }

  /** The number a string of decimal digits denotes (leading zeros allowed). */
  function DigitsValue(s: string): nat
    requires AllDigits(s)
  {
    if s == [] then 0 else DigitsValue(s[..|s| - 1]) * 10 + (s[|s| - 1] as int - '0' as int)
  }

  /** Reading back the decimal form of `n` gives `n`. */
  lemma {:induction false} DecimalRoundTrip(n: nat)
    ensures DigitsValue(DecimalString(n)) == n
  {
    var r := DecimalString(n);
    if n >= 10 {
      DecimalRoundTrip(n / 10);
      assert r[..|r| - 1] == DecimalString(n / 10);
    }
  }

  /** Distinct numbers have distinct decimal forms. */
  lemma DecimalInjective(a: nat, b: nat)
    requires DecimalString(a) == DecimalString(b)
    ensures a == b
  {
    DecimalRoundTrip(a);
    DecimalRoundTrip(b);
  }

  /** A leading zero does not change the value of a digit string. */
  lemma {:induction false} LeadingZero(s: string)
    requires AllDigits(s)
    ensures DigitsValue(['0'] + s) == DigitsValue(s)
  {
    if s != [] {
      assert (['0'] + s)[..|s|] == ['0'] + s[..|s| - 1];
      LeadingZero(s[..|s| - 1]);
    }
  }

  /** `padStart(2, '0')`. */
  function PadStart2(s: string): (r: string)
    ensures |r| == Max(2, |s|)
  {
    if |s| == 0 then "00" else if |s| == 1 then ['0'] + s else s
  }

  /** Two-digit padding of a number reads back as the same number. */
  lemma PaddedRoundTrip(n: nat)
    ensures AllDigits(PadStart2(DecimalString(n)))
    ensures DigitsValue(PadStart2(DecimalString(n))) == n
  {
    DecimalRoundTrip(n);
    if |DecimalString(n)| == 1 {
      LeadingZero(DecimalString(n));
    }
  }
}
