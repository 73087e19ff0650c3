/** Decimal text: `parseInt(s, 10)` on a run of ASCII digits and the template
    rendering `${n}` of a non-negative integer. */
module Decimal {

  predicate IsDigit(c: char)
  {
    '0' <= c <= '9'
  }

  predicate AllDigits(s: string)
  {
    forall i :: 0 <= i < |s| ==> IsDigit(s[i])
  }

  /** The shape `${n}` gives: at least one digit and no leading zero unless the text is "0". */
  predicate Canonical(s: string)
  {
    s != [] && AllDigits(s) && (s[0] == '0' ==> |s| == 1)
  }

  function DigitValue(c: char): (d: nat)
    requires IsDigit(c)
    ensures d < 10
  {
    c as int - '0' as int
  }

  function DigitChar(d: nat): (c: char)
    requires d < 10
    ensures IsDigit(c) && DigitValue(c) == d
    ensures d == 0 <==> c == '0'
  {
    ('0' as int + d) as char
  }

  /** `parseInt(s, 10)` of a digit run, with unbounded precision. */
  function ParseDigits(s: string): (n: nat)
    requires AllDigits(s)
    ensures s == [] ==> n == 0
    // a leading zero does not change the value
    ensures s != [] && s[0] == '0' ==> n == ParseDigits(s[1..])
  {
    if s == [] then 0
    else
      var init := s[..|s| - 1];
      assert |s| > 1 ==> init[0] == s[0] && init[1..] == s[1..][..|s[1..]| - 1];
      ParseDigits(init) * 10 + DigitValue(s[|s| - 1])
  }

  /** `${n}`: the decimal rendering of n, which parses back to n. */
  function NatToString(n: nat): (s: string)
    ensures Canonical(s)
    ensures ParseDigits(s) == n
  {
    if n < 10 then [DigitChar(n)]
    else
      var s := NatToString(n / 10) + [DigitChar(n % 10)];
      assert s[..|s| - 1] == NatToString(n / 10);
      s
  }

  /** A digit run without a leading zero has a positive value. */
  lemma {:induction false} ParsePositive(s: string)
    requires AllDigits(s) && s != [] && s[0] != '0'
    ensures ParseDigits(s) > 0
  {
    if |s| > 1 {
      ParsePositive(s[..|s| - 1]);
    }
  }

  /** The other half of the round trip: printing what was parsed gives back
      every canonical digit run. */
  lemma {:induction false} PrintParsed(s: string)
    requires Canonical(s)
    ensures NatToString(ParseDigits(s)) == s
  {
    if |s| == 1 {
      assert DigitChar(DigitValue(s[0])) == s[0];
    } else {
      var p := s[..|s| - 1];
      var d := DigitValue(s[|s| - 1]);
      assert p[0] == s[0];
      ParsePositive(p);
      PrintParsed(p);
      var n := ParseDigits(s);
      assert n == ParseDigits(p) * 10 + d;
      assert n / 10 == ParseDigits(p) && n % 10 == d;
      assert DigitChar(d) == s[|s| - 1];
      assert s == p + [s[|s| - 1]];
    }
  }

  /** Printing is injective: distinct numbers get distinct texts. */
  lemma PrintInjective(m: nat, n: nat)
    requires NatToString(m) == NatToString(n)
    ensures m == n
  {
    assert ParseDigits(NatToString(m)) == m;
  }
}
