/** Decimal rendering of natural numbers, as `std::ostringstream << n` writes
    an unsigned integer. The logger builds its internal channel names with it. */
module Decimal {

  /** The character of a single decimal digit. */
  function Digit(d: nat): (c: char)
    requires d < 10
    ensures '0' <= c <= '9'
    ensures c as int - '0' as int == d
  {
    ('0' as int + d) as char
  }

  /** The number a string of decimal digits denotes, most significant digit
      first. */
  function DigitsValue(s: string): int
  {
    if s == [] then 0 else 10 * DigitsValue(s[..|s| - 1]) + (s[|s| - 1] as int - '0' as int)
  }

  /** The shortest decimal representation of n, most significant digit first:
      it denotes n and has no leading zero. */
  function NatToString(n: nat): (s: string)
    ensures 1 <= |s|
    ensures |s| == 1 <==> n < 10
    ensures forall i :: 0 <= i < |s| ==> '0' <= s[i] <= '9'
    ensures DigitsValue(s) == n
    ensures n > 0 ==> s[0] != '0'
    decreases n
  {
    if n < 10 then
      [Digit(n)]
    else
      var s := NatToString(n / 10) + [Digit(n % 10)];
      assert s[..|s| - 1] == NatToString(n / 10);
      s
  }

  /** Two numbers are rendered alike only when they are equal. */
  lemma {:induction false} NatToStringInjective(n: nat, m: nat)
    requires NatToString(n) == NatToString(m)
    ensures n == m
    decreases n
  {
    var s := NatToString(n);
    if n < 10 {
      assert m < 10;
      assert s[0] == Digit(n) && s[0] == Digit(m);
    } else {
      assert 10 <= m;
      assert s == NatToString(n / 10) + [Digit(n % 10)];
      assert s == NatToString(m / 10) + [Digit(m % 10)];
      assert s[|s| - 1] == Digit(n % 10) == Digit(m % 10);
      assert NatToString(n / 10) == s[..|s| - 1] == NatToString(m / 10);
      NatToStringInjective(n / 10, m / 10);
    }
  }

}
