/**
 * The two integer/string conversions the bot relies on: `str(n)` for a
 * natural number (the keys of the dummy table) and `int(s)` on the text of a
 * chat message (the points a user types).
 */
module Ints {
  import opened Wrappers

  predicate IsDigit(c: char) {
    '0' <= c <= '9'
  }

  function DigitOf(c: char): (d: nat)
    requires IsDigit(c)
    ensures d < 10
  {
    c as int - '0' as int
  }

  function DigitChar(d: nat): (c: char)
    requires d < 10
    ensures IsDigit(c) && DigitOf(c) == d
  {
    ('0' as int + d) as char
  }

  /** `str(n)` for `n >= 0`: the decimal digits, most significant first, without leading zeros. */
  function NatStr(n: nat): (s: string)
    ensures |s| >= 1 && forall i :: 0 <= i < |s| ==> IsDigit(s[i])
    ensures |s| > 1 ==> s[0] != '0'
  {
    if n < 10 then [DigitChar(n)] else NatStr(n / 10) + [DigitChar(n % 10)]
  }

  /** `str(n)` for any integer: a minus sign before the digits of a negative number. */
  function IntStr(n: int): (s: string)
    ensures |s| >= 1 && IsDigit(s[|s| - 1])
    ensures n < 0 <==> s[0] == '-'
  {
    if n < 0 then "-" + NatStr(-n) else NatStr(n)
  }

  /**
   * The white space `int()` skips at both ends. An ASCII character is kept as
   * it is and skipped only if it is C-locale white space (so the separators
   * U+001C..U+001F are not); a non-ASCII white-space character, here the two
   * from Latin-1, is first turned into a space.
   */
  predicate IsSpace(c: char) {
    || c == ' ' || c == '\t' || c == '\n' || c == '\r' || c == '\U{B}' || c == '\U{C}'
    || c == '\U{85}' || c == '\U{A0}'
  }

  function StripLeft(s: string): (r: string)
    ensures |r| <= |s| && r == s[|s| - |r|..]
    ensures r == [] || !IsSpace(r[0])
    ensures s != [] && !IsSpace(s[0]) ==> r == s
  {
    if s != [] && IsSpace(s[0]) then StripLeft(s[1..]) else s
  }

  function StripRight(s: string): (r: string)
    ensures |r| <= |s| && r == s[..|r|]
    ensures r == [] || !IsSpace(r[|r| - 1])
    ensures s != [] && !IsSpace(s[|s| - 1]) ==> r == s
  {
    if s != [] && IsSpace(s[|s| - 1]) then StripRight(s[..|s| - 1]) else s
  }

  /** The white space `int()` skips at both ends, removed: a contiguous piece of `s` with none at either end. */
  function Strip(s: string): (r: string)
  {
    StripRight(StripLeft(s))
  }

  /** The digits of an integer literal as `int()` accepts them: single underscores may separate digits. */
  predicate IsDigitRun(s: string) {
    && |s| > 0 && IsDigit(s[0]) && IsDigit(s[|s| - 1])
    && (forall i :: 0 <= i < |s| ==> IsDigit(s[i]) || s[i] == '_')
    && (forall i :: 0 <= i < |s| - 1 ==> s[i] == '_' ==> s[i + 1] != '_')
  }

  /** The number a run of digits and underscores denotes; underscores count for nothing. */
  function DigitsValue(s: string): nat
    requires forall i :: 0 <= i < |s| ==> IsDigit(s[i]) || s[i] == '_'
  {
    if s == [] then 0
    else if s[|s| - 1] == '_' then DigitsValue(s[..|s| - 1])
    else 10 * DigitsValue(s[..|s| - 1]) + DigitOf(s[|s| - 1])
  }

  /**
   * `int(s)` on a string, base 10: `None` where Python raises `ValueError`,
   * except that CPython's limit on the number of digits is not modelled.
   */
  function ParseInt(s: string): (r: Option<int>)
    ensures r.Some? ==> var t := Strip(s);
      && |t| > 0 && IsDigit(t[|t| - 1])
      && (IsDigit(t[0]) || t[0] == '-' || t[0] == '+')
    ensures r.Some? && r.value < 0 ==> Strip(s)[0] == '-'
  {
    ParseLiteral(Strip(s))
  }

  /** An optional sign and a run of digits, with no white space around. */
  function ParseLiteral(t: string): (r: Option<int>)
  {
    if |t| > 0 && (t[0] == '-' || t[0] == '+') then
      if IsDigitRun(t[1..]) then
        var v: int := DigitsValue(t[1..]);
        Some(if t[0] == '-' then -v else v)
      else None
    else if IsDigitRun(t) then Some(DigitsValue(t))
    else None
  }

  lemma {:induction false} NatStrValue(n: nat)
    ensures DigitsValue(NatStr(n)) == n
  {
    if n >= 10 {
      var s := NatStr(n);
      NatStrValue(n / 10);
      assert s[..|s| - 1] == NatStr(n / 10);
    }
  }

  /** Different numbers print differently. */
  lemma NatStrInjective(a: nat, b: nat)
    ensures NatStr(a) == NatStr(b) ==> a == b
  {
    NatStrValue(a);
    NatStrValue(b);
  }

  /** `int(str(n)) == n`, also with white space around the digits. */
  lemma ParseIntStr(n: int, left: string, right: string)
    requires forall i :: 0 <= i < |left| ==> IsSpace(left[i])
    requires forall i :: 0 <= i < |right| ==> IsSpace(right[i])
    ensures ParseInt(left + IntStr(n) + right) == Some(n)
  {
    StripPadded(left, IntStr(n), right);
    LiteralIntStr(n);
  }

  lemma LiteralIntStr(n: int)
    ensures ParseLiteral(IntStr(n)) == Some(n)
  {
    var m: nat := if n < 0 then -n else n;
    var digits := NatStr(m);
    NatStrValue(m);
    assert IsDigitRun(digits);
    if n < 0 {
      assert IntStr(n)[1..] == digits;
    }
  }

  lemma {:induction false} StripPadded(left: string, s: string, right: string)
    requires s != [] && !IsSpace(s[0]) && !IsSpace(s[|s| - 1])
    requires forall i :: 0 <= i < |left| ==> IsSpace(left[i])
    requires forall i :: 0 <= i < |right| ==> IsSpace(right[i])
    ensures Strip(left + s + right) == s
  {
    StripLeftPadded(left, s + right);
    assert left + s + right == left + (s + right);
    assert (s + right)[0] == s[0];
    StripRightPadded(s, right);
  }

  lemma {:induction false} StripLeftPadded(left: string, s: string)
    requires s != [] && !IsSpace(s[0])
    requires forall i :: 0 <= i < |left| ==> IsSpace(left[i])
    ensures StripLeft(left + s) == s
  {
    if left != [] {
      assert (left + s)[1..] == left[1..] + s;
      StripLeftPadded(left[1..], s);
    }
  }

  lemma {:induction false} StripRightPadded(s: string, right: string)
    requires s != [] && !IsSpace(s[|s| - 1])
    requires forall i :: 0 <= i < |right| ==> IsSpace(right[i])
    ensures StripRight(s + right) == s
  {
    if right != [] {
      var r := right[..|right| - 1];
      assert (s + right)[..|s + right| - 1] == s + r;
      StripRightPadded(s, r);
    }
  }

  /** `int()` refuses every string without a decimal digit in it. */
  lemma ParseIntNeedsDigit(s: string)
    requires forall i :: 0 <= i < |s| ==> !IsDigit(s[i])
    ensures ParseInt(s) == None
  {
    var l := StripLeft(s);
    NoDigitSlice(s, |s| - |l|, |s|);
    var t := StripRight(l);
    NoDigitSlice(l, 0, |t|);
    LiteralNeedsDigit(t);
  }

  lemma NoDigitSlice(s: string, lo: nat, hi: nat)
    requires lo <= hi <= |s|
    requires forall i :: 0 <= i < |s| ==> !IsDigit(s[i])
    ensures forall i :: 0 <= i < hi - lo ==> !IsDigit(s[lo..hi][i])
  {
    assert forall i :: 0 <= i < hi - lo ==> s[lo..hi][i] == s[lo + i];
  }

  /** A file separator before the digits is not white space to `int()`: `int("\x1c5")` fails. */
  lemma SeparatorNotStripped()
    ensures ParseInt("\U{1C}5") == None
  {
    assert StripLeft("\U{1C}5") == "\U{1C}5";
    assert StripRight("\U{1C}5") == "\U{1C}5";
    assert !IsDigitRun("\U{1C}5") by { assert !IsDigit("\U{1C}5"[0]); }
  }

  lemma LiteralNeedsDigit(t: string)
    requires forall i :: 0 <= i < |t| ==> !IsDigit(t[i])
    ensures ParseLiteral(t) == None
  {
    if |t| > 1 {
      assert !IsDigit(t[1..][0]);
    }
  }
}
