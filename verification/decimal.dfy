/**
 * Python's `str()` of an integer, as used when an HTTP status code is put into
 * an error message (`f"API Error: {response.status_code}"`).
 */
module Decimal {

  function Digit(d: nat): (c: char)
    requires d < 10
  {
    (48 + d) as char
  }

  predicate AllDigits(s: string) {
    forall k :: 0 <= k < |s| ==> '0' <= s[k] <= '9'
  }

  /** The number a string of decimal digits denotes, most significant digit first. */
  function DecValue(s: string): nat
    requires AllDigits(s)
  {
    if s == [] then 0 else DecValue(s[..|s| - 1]) * 10 + (s[|s| - 1] as int - 48)
  }

  /** Decimal digits of a natural number, most significant first, without leading zeros. */
  function NatText(n: nat): (r: string)
    ensures 1 <= |r|
    ensures AllDigits(r)
    ensures DecValue(r) == n
    ensures n > 0 ==> r[0] != '0'
    ensures n >= 10 ==> |r| >= 2
  {
    if n < 10 then [Digit(n)]
    else
      var head := NatText(n / 10);
      var r := head + [Digit(n % 10)];
      assert r[..|r| - 1] == head;
      r
  }

  /** `str(i)` for a Python int: a leading minus sign for negative values, then the digits of its magnitude. */
  function IntText(i: int): (r: string)
    ensures 1 <= |r|
    ensures r[0] == '-' <==> i < 0
    ensures i >= 0 ==> AllDigits(r) && DecValue(r) == i
    ensures i < 0 ==> AllDigits(r[1..]) && DecValue(r[1..]) == -i
    ensures i > 0 ==> r[0] != '0'
    ensures i < 0 ==> |r| >= 2 && r[1] != '0'
  {
    if i < 0 then
      var r := "-" + NatText(-i);
      assert r[1..] == NatText(-i);
      r
    else NatText(i)
  }

  /** Different numbers have different decimal texts. */
  lemma {:induction false} NatTextInjective(a: nat, b: nat)
    requires NatText(a) == NatText(b)
    ensures a == b
    decreases a
  {
    var ta, tb := NatText(a), NatText(b);
    if a < 10 && b < 10 {
      assert ta[0] == Digit(a) && tb[0] == Digit(b);
    } else if a >= 10 && b >= 10 {
      var ha, hb := NatText(a / 10), NatText(b / 10);
      assert ta == ha + [Digit(a % 10)];
      assert tb == hb + [Digit(b % 10)];
      assert |ha| == |hb|;
      assert ha == ta[..|ha|];
      assert hb == tb[..|hb|];
      assert ta[|ha|] == Digit(a % 10) && tb[|hb|] == Digit(b % 10);
      NatTextInjective(a / 10, b / 10);
    }
  }

  /** Different status codes have different texts, so the code can be read back from the message. */
  lemma IntTextInjective(a: int, b: int)
    requires IntText(a) == IntText(b)
    ensures a == b
  {
    if a < 0 {
      assert IntText(a)[1..] == NatText(-a);
      assert IntText(b)[1..] == NatText(-b);
      NatTextInjective(-a, -b);
    } else {
      NatTextInjective(a, b);
    }
  }
}
