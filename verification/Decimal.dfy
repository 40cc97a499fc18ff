/** strconv.ParseUint in base 10, and the decimal printer it inverts. */
module Decimal {
  import opened Common

  predicate IsDigit(c: char) {
    '0' <= c <= '9'
  }

  predicate IsNumeral(s: string) {
    s != "" && forall i :: 0 <= i < |s| ==> IsDigit(s[i])
  }

  function Digit(c: char): nat
    requires IsDigit(c)
  {
    c as int - '0' as int
  }

  function Value(s: string): nat
    requires IsNumeral(s)
  {
    var n := |s| - 1;
    (if n == 0 then 0 else 10 * Value(s[..n])) + Digit(s[n])
  }

  /** strconv.ParseUint(s, 10, bits) for max == 2^bits - 1: no sign, no space, not empty, not above max. */
  function ParseUint(s: string, max: nat): Option<nat> {
    if IsNumeral(s) && Value(s) <= max then Some(Value(s)) else None
  }

  function DigitChar(d: nat): (c: char)
    requires d < 10
    ensures IsDigit(c) && Digit(c) == d
  {
    '0' + d as char
  }

  function PrintUint(n: nat): (s: string)
    ensures IsNumeral(s)
  {
    (if n < 10 then "" else PrintUint(n / 10)) + [DigitChar(n % 10)]
  }

  /** A numeral without superfluous leading zeros. */
  predicate IsCanonical(s: string) {
    IsNumeral(s) && (s[0] == '0' ==> |s| == 1)
  }

  lemma {:induction false} ValueOfPrint(n: nat)
    ensures Value(PrintUint(n)) == n && IsCanonical(PrintUint(n)) && (PrintUint(n)[0] == '0' ==> n == 0)
  {
    var s := PrintUint(n);
    if n >= 10 {
      ValueOfPrint(n / 10);
      assert s[..|s| - 1] == PrintUint(n / 10);
    }
  }

  /** Two canonical numerals with the same value are the same text. */
  lemma {:induction false} PrintOfValue(s: string)
    requires IsCanonical(s)
    ensures PrintUint(Value(s)) == s && (Value(s) == 0 ==> s == "0")
  {
    var n := |s| - 1;
    DigitOfChar(s[n]);
    if n > 0 {
      PrintOfValue(s[..n]);
      PrintStep(Value(s[..n]), Digit(s[n]));
      assert s == s[..n] + [s[n]];
    } else {
      assert s == [s[0]];
    }
  }

  lemma DigitOfChar(c: char)
    requires IsDigit(c)
    ensures DigitChar(Digit(c)) == c
  {
  }

  lemma PrintStep(q: nat, r: nat)
    requires q > 0 && r < 10
    ensures PrintUint(10 * q + r) == PrintUint(q) + [DigitChar(r)]
  {
    DivMod10(q, r);
  }

  lemma DivMod10(q: nat, r: nat)
    requires r < 10
    ensures (10 * q + r) / 10 == q && (10 * q + r) % 10 == r
  {
  }

  /** Parsing what was printed gives the number; printing what was parsed gives the text exactly if it was canonical. */
  lemma ParsePrintUint(n: nat, s: string, max: nat)
    ensures n <= max ==> ParseUint(PrintUint(n), max) == Some(n)
    ensures ParseUint(s, max) == Some(n) ==> (PrintUint(n) == s <==> IsCanonical(s))
  {
    ValueOfPrint(n);
    if IsCanonical(s) {
      PrintOfValue(s);
    }
  }
}
