/** Integers as Python writes and reads them. */
module Numerals {

  function Decimal(n: int): (text: string)
    decreases if n < 0 then 1 - n else n
  {
    if n < 0 then "-" + Decimal(-n)
    else if n < 10 then ['0' + n as char]
    else Decimal(n / 10) + ['0' + (n % 10) as char]
  }

  predicate Digit(c: char) {
    '0' <= c <= '9'
  }

  predicate AllDigits(s: string) {
    s != "" && forall i :: 0 <= i < |s| ==> Digit(s[i])
  }

  predicate IsInteger(s: string) {
    AllDigits(s) || (s != "" && s[0] == '-' && AllDigits(s[1..]))
  }

  function DigitsValue(s: string): (n: int)
    requires forall i :: 0 <= i < |s| ==> Digit(s[i])
  {
    if s == "" then 0
    else
      assert Digit(s[|s| - 1]);
      DigitsValue(s[..|s| - 1]) * 10 + (s[|s| - 1] - '0') as int
  }

  function IntegerValue(s: string): (n: int)
    requires IsInteger(s)
  {
    if AllDigits(s) then DigitsValue(s) else -DigitsValue(s[1..])
  }

  lemma {:induction false} DigitsOf(n: nat)
    ensures AllDigits(Decimal(n)) && DigitsValue(Decimal(n)) == n
    decreases n
  {
    if n >= 10 {
      DigitsOf(n / 10);
      var text := Decimal(n / 10);
      assert (text + ['0' + (n % 10) as char])[..|text|] == text;
    } else {
      assert Decimal(n)[..0] == "";
    }
  }

  lemma DecimalRead(n: int)
    ensures IsInteger(Decimal(n)) && IntegerValue(Decimal(n)) == n
    ensures forall i :: 0 <= i < |Decimal(n)| ==> Digit(Decimal(n)[i]) || Decimal(n)[i] == '-'
  {
    if n < 0 {
      DigitsOf(-n);
      assert Decimal(n)[1..] == Decimal(-n);
    } else {
      DigitsOf(n);
    }
  }
}
