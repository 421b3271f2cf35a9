/** `str(n)` for natural numbers, and reading it back. */
module Decimal {

  predicate IsDigit(c: char) {
    '0' <= c <= '9'
  }

  predicate AllDigits(s: string) {
    forall c :: c in s ==> IsDigit(c)
  }

  function Digit(d: nat): (c: char)
    requires d < 10
    ensures IsDigit(c) && DigitValue(c) == d
  {
    '0' + d as char
  }

  function DigitValue(c: char): nat
    requires IsDigit(c)
  {
    (c - '0') as nat
  }

  function Show(n: nat): (s: string)
    ensures s != "" && AllDigits(s)
  {
    if n < 10 then [Digit(n)] else Show(n / 10) + [Digit(n % 10)]
  }

  function Read(s: string): nat
    requires AllDigits(s)
  {
    if s == "" then 0
    else
      assert s[|s| - 1] in s;
      10 * Read(s[..|s| - 1]) + DigitValue(s[|s| - 1])
  }

  lemma {:induction false} ReadShow(n: nat)
    ensures Read(Show(n)) == n
  {
    if n >= 10 {
      ReadShow(n / 10);
      assert Show(n)[..|Show(n)| - 1] == Show(n / 10);
    }
  }

  /** Decimal notation, digit by digit. */
  lemma ShowIs(n: nat, d: nat)
    requires d < 10
    ensures Show(d) == ["0123456789"[d]]
    ensures n > 0 ==> Show(10 * n + d) == Show(n) + Show(d)
  {
  }

  /** Leading zeros do not change the number. */
  lemma {:induction false} ReadZeros(zeros: string, s: string)
    requires AllDigits(s) && forall i :: 0 <= i < |zeros| ==> zeros[i] == '0'
    ensures AllDigits(zeros + s) && Read(zeros + s) == Read(s)
  {
    if s != "" {
      var t := zeros + s;
      assert t[..|t| - 1] == zeros + s[..|s| - 1];
      assert s == s[..|s| - 1] + [s[|s| - 1]];
      ReadZeros(zeros, s[..|s| - 1]);
    } else if zeros != "" {
      var init := zeros[..|zeros| - 1];
      assert zeros + "" == zeros && init + "" == init;
      assert zeros == init + [zeros[|zeros| - 1]];
      ReadZeros(init, "");
    }
  }

}
