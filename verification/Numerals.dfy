/** Decimal numerals, as template strings write integers and Number reads them. */
module Numerals {
  import opened Prelude

  function DigitOf(d: nat): char
    requires d < 10
  {
    '0' + (d as char)
  }

  function Digits(n: nat): string {
    if n < 10 then [DigitOf(n)] else Digits(n / 10) + [DigitOf(n % 10)]
  }

  predicate IsDigit(c: char) {
    '0' <= c <= '9'
  }

  function FromDigits(s: string): Option<nat> {
    if s == [] then Some(0)
    else
      var front, c := FromDigits(s[..|s| - 1]), s[|s| - 1];
      if front.None? || !IsDigit(c) then None else Some(front.value * 10 + (c as int - '0' as int))
  }

  lemma {:induction false} DigitsReadBack(n: nat)
    ensures Digits(n) != [] && FromDigits(Digits(n)) == Some(n)
    ensures forall c :: c in Digits(n) ==> IsDigit(c)
    decreases n
  {
    if n >= 10 {
      DigitsReadBack(n / 10);
      assert Digits(n)[..|Digits(n)| - 1] == Digits(n / 10);
    } else {
      assert Digits(n)[..0] == [];
    }
  }
}
