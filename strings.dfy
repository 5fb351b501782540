/** String operations the chat server and its helpers rely on: substring search
    (JavaScript's `String.prototype.includes`) and decimal rendering of naturals
    (what a template literal `${n}` produces for a non-negative integer). */
module Strings {

  /** `t` occurs in `s` at some offset: the meaning of `s.includes(t)`. */
  ghost predicate Occurs(t: string, s: string) {
    exists i :: 0 <= i <= |s| - |t| && t <= s[i..]
  }

  lemma OccursShift(t: string, s: string)
    requires |s| > 0 && !(t <= s)
    ensures Occurs(t, s) <==> Occurs(t, s[1..])
  {
    if Occurs(t, s) {
      var i :| 0 <= i <= |s| - |t| && t <= s[i..];
      assert i != 0;
      assert s[1..][i - 1..] == s[i..];
    }
    if Occurs(t, s[1..]) {
      var i :| 0 <= i <= |s[1..]| - |t| && t <= s[1..][i..];
      assert s[1..][i..] == s[i + 1..];
    }
  }

  /** Executable substring search. */
  function Contains(s: string, t: string): (b: bool)
    ensures b <==> Occurs(t, s)
    decreases |s|
  {
    if t <= s then
      assert s[0..] == s;
      true
    else if |s| == 0 then
      false
    else
      OccursShift(t, s);
      Contains(s[1..], t)
  }

  /** The occurrence of `t` in a concatenation that places it between `a` and `b`. */
  lemma OccursBetween(a: string, t: string, b: string)
    ensures Occurs(t, a + t + b)
  {
    var s := a + t + b;
    assert s[|a|..] == t + b;
    assert t <= s[|a|..];
  }

  predicate IsDigit(c: char) {
    '0' <= c <= '9'
  }

  predicate AllDigits(s: string) {
    forall i :: 0 <= i < |s| ==> IsDigit(s[i])
  }

  function DigitChar(d: nat): (c: char)
    requires d < 10
    ensures IsDigit(c) && c as int - '0' as int == d
  {
    ('0' as int + d) as char
  }

  /** The value of a string of decimal digits, most significant first. */
  function DecimalValue(s: string): nat
    requires AllDigits(s)
  {
    if s == [] then 0
    else DecimalValue(s[..|s| - 1]) * 10 + (s[|s| - 1] as int - '0' as int)
  }

  /** The shortest decimal numeral of `n`, as JavaScript renders a non-negative integer. */
  function NatToString(n: nat): (s: string)
    ensures |s| >= 1 && AllDigits(s)
    ensures DecimalValue(s) == n
    ensures |s| > 1 ==> s[0] != '0'
    decreases n
  {
    if n < 10 then [DigitChar(n)]
    else
      var prefix := NatToString(n / 10);
      var s := prefix + [DigitChar(n % 10)];
      assert s[..|s| - 1] == prefix;
      s
  }
}
