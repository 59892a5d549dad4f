/**
 * The two decimal conversions of Go's strconv package that the form-fill
 * engine uses. Atoi accepts an optional sign followed by one or more ASCII
 * digits and fails on anything else, the empty string included; Itoa renders
 * an integer in decimal with a leading '-' when negative. Integers are
 * unbounded here: Go's 64-bit range errors are not modelled.
 */
module Strconv {
  import opened Wrappers

  predicate IsDigit(c: char) {
    '0' <= c <= '9'
  }

  predicate AllDigits(s: string) {
    forall i :: 0 <= i < |s| ==> IsDigit(s[i])
  }

  predicate IsSign(c: char) {
    c == '+' || c == '-'
  }

  function DigitValue(c: char): (d: nat)
    requires IsDigit(c)
    ensures d < 10
  {
    c as int - '0' as int
  }

  function DigitChar(d: nat): (c: char)
    requires d < 10
    ensures IsDigit(c) && DigitValue(c) == d
  {
    ('0' as int + d) as char
  }

  /** The value of a string of decimal digits, most significant digit first. */
  function DigitsValue(s: string): nat
    requires AllDigits(s)
    decreases |s|
  {
    if s == [] then 0 else DigitsValue(s[..|s| - 1]) * 10 + DigitValue(s[|s| - 1])
  }

  /** strconv.Atoi: an optional sign, then one or more digits. */
  function Atoi(s: string): (r: Option<int>)
    ensures r.Some? <==> |s| > 0 && (IsDigit(s[0]) || (IsSign(s[0]) && |s| > 1)) && AllDigits(s[1..])
    ensures r.Some? && s[0] != '-' ==> r.value >= 0
    ensures r.Some? && s[0] == '-' ==> r.value <= 0
    ensures r.Some? && IsSign(s[0]) ==> r.value == (if s[0] == '-' then -(DigitsValue(s[1..]) as int) else DigitsValue(s[1..]))
    ensures r.Some? && !IsSign(s[0]) ==> r.value == DigitsValue(s)
  {
    if |s| > 0 && IsSign(s[0]) then
      var digits := s[1..];
      if |digits| > 0 && AllDigits(digits) then
        var magnitude: int := DigitsValue(digits);
        Some(if s[0] == '-' then -magnitude else magnitude)
      else
        None
    else if |s| > 0 && AllDigits(s) then
      Some(DigitsValue(s))
    else
      None
  }

  /** Decimal digits of a natural number, without leading zeros. */
  function NatDigits(n: nat): (s: string)
    decreases n
    ensures |s| > 0 && AllDigits(s) && DigitsValue(s) == n
    ensures s[0] == '0' ==> n == 0
  {
    if n < 10 then [DigitChar(n)]
    else
      var prefix := NatDigits(n / 10);
      var s := prefix + [DigitChar(n % 10)];
      assert s[..|s| - 1] == prefix;
      s
  }

  /** strconv.Itoa: decimal rendering, '-' in front of a negative number. */
  function Itoa(n: int): (s: string)
    ensures |s| > 0 && AllDigits(s[1..])
    ensures s[0] == '-' <==> n < 0
    ensures IsDigit(s[0]) <==> n >= 0
  {
    if n < 0 then "-" + NatDigits(-n) else NatDigits(n)
  }

  /** Parsing what Itoa renders gives back the number. */
  lemma AtoiItoa(n: int)
    ensures Atoi(Itoa(n)) == Some(n)
  {
    var s := Itoa(n);
    if n < 0 {
      assert s[1..] == NatDigits(-n);
    } else {
      assert s == NatDigits(n);
    }
  }

  /** Itoa never renders two different numbers alike. */
  lemma ItoaInjective(m: int, n: int)
    requires Itoa(m) == Itoa(n)
    ensures m == n
  {
    AtoiItoa(m);
    AtoiItoa(n);
  }
}
