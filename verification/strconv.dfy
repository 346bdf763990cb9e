/**
 * Decimal conversion of Go's int (64 bits on the targets the program is
 * built for), as strconv.Atoi and strconv.Itoa do it.
 */
module Strconv {
  import opened Wrappers

  const IntMin: int := -0x8000_0000_0000_0000
  const IntMax: int := 0x7fff_ffff_ffff_ffff

  predicate IsDigit(c: char) {
    '0' <= c <= '9'
  }

  predicate AllDigits(s: string) {
    forall i :: 0 <= i < |s| ==> IsDigit(s[i])
  }

  /** The value of a string of decimal digits. */
  function DigitsValue(s: string): nat
    requires AllDigits(s)
  {
    if s == [] then 0 else DigitsValue(s[..|s| - 1]) * 10 + (s[|s| - 1] as int - '0' as int)
  }

  /**
   * strconv.Atoi: an optional sign followed by at least one decimal digit,
   * nothing else, and a value that fits the 64-bit int.
   */
  function Atoi(s: string): (r: Option<int>)
    ensures r.Some? ==> IntMin <= r.value <= IntMax
    ensures s == [] ==> r.None?
  {
    if s == [] then None
    else
      var negative := s[0] == '-';
      var digits := if s[0] == '-' || s[0] == '+' then s[1..] else s;
      if digits == [] || !AllDigits(digits) then None
      else
        var magnitude: int := DigitsValue(digits);
        var v := if negative then -magnitude else magnitude;
        if IntMin <= v <= IntMax then Some(v) else None
  }

  function DigitChar(d: nat): char
    requires d < 10
  {
    ('0' as int + d) as char
  }

  /** The decimal digits of n, without leading zeros. */
  function NatDigits(n: nat): (s: string)
    ensures s != [] && AllDigits(s)
  {
    if n < 10 then [DigitChar(n)] else NatDigits(n / 10) + [DigitChar(n % 10)]
  }

  /** strconv.Itoa. */
  function Itoa(n: int): string {
    if n < 0 then "-" + NatDigits(-n) else NatDigits(n)
  }

  lemma {:induction false} NatDigitsValue(n: nat)
    ensures DigitsValue(NatDigits(n)) == n
  {
    if n >= 10 {
      NatDigitsValue(n / 10);
      var s := NatDigits(n);
      assert s[..|s| - 1] == NatDigits(n / 10);
    }
  }

  /** Parsing what Itoa prints gives the number back. */
  lemma AtoiItoa(n: int)
    requires IntMin <= n <= IntMax
    ensures Atoi(Itoa(n)) == Some(n)
  {
    if n < 0 {
      NatDigitsValue(-n);
      assert Itoa(n)[1..] == NatDigits(-n);
    } else {
      NatDigitsValue(n);
    }
  }

  /** Text with a character other than a sign or digit never parses. */
  lemma AtoiRejectsNonDigit(s: string, i: nat)
    requires i < |s| && !IsDigit(s[i]) && (i > 0 || (s[i] != '-' && s[i] != '+'))
    ensures Atoi(s).None?
  {
    if |s| > 0 && (s[0] == '-' || s[0] == '+') {
      assert s[1..][i - 1] == s[i];
    }
  }
}
