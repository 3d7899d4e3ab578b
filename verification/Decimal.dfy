/** Decimal numbers as Go prints and parses them (strconv.Itoa, FormatInt, Atoi, ParseInt, ParseUint). */
module Decimal {
  import opened Option

  const INT64_LIMIT: int := 0x8000_0000_0000_0000
  const UINT64_LIMIT: int := 0x1_0000_0000_0000_0000

  predicate IsDigit(c: char) {
    '0' <= c <= '9'
  }

  predicate AllDigits(s: string) {
    forall i | 0 <= i < |s| :: IsDigit(s[i])
  }

  function DigitChar(d: nat): (c: char)
    requires d < 10
    ensures IsDigit(c) && DigitValue(c) == d
  {
    "0123456789"[d]
  }

  function DigitValue(c: char): (d: nat)
    requires IsDigit(c)
    ensures d < 10
  {
    c as int - '0' as int
  }

  /** The value of a string of digits; leading zeros count for nothing. */
  function Value(s: string): nat
    requires AllDigits(s)
  {
    if s == "" then 0 else 10 * Value(s[..|s| - 1]) + DigitValue(s[|s| - 1])
  }

  function PrintNat(n: nat): (s: string)
    ensures s != "" && AllDigits(s) && Value(s) == n
  {
    if n < 10 then [DigitChar(n)]
    else
      var front := PrintNat(n / 10);
      var s := front + [DigitChar(n % 10)];
      assert s[..|s| - 1] == front;
      s
  }

  function PrintInt(n: int): (s: string)
    ensures s != ""
  {
    if n < 0 then "-" + PrintNat(-n) else PrintNat(n)
  }

  /** ParseUint in base 10, for 64 bits: no sign, no underscore, no overflow. */
  function ParseUint(s: string): (r: Option<nat>)
    ensures r.Some? <==> s != "" && AllDigits(s) && Value(s) < UINT64_LIMIT
    ensures r.Some? ==> r.value == Value(s)
  {
    if s != "" && AllDigits(s) && Value(s) < UINT64_LIMIT then Some(Value(s)) else None
  }

  /** Atoi and ParseInt(_, 10, 64): an optional sign, then digits, within 64 bits. */
  function ParseInt(s: string): Option<int> {
    var negative := s != "" && s[0] == '-';
    var digits := if s != "" && (s[0] == '-' || s[0] == '+') then s[1..] else s;
    if digits == "" || !AllDigits(digits) then None
    else if negative then (if Value(digits) <= INT64_LIMIT then Some(-(Value(digits) as int)) else None)
    else if Value(digits) < INT64_LIMIT then Some(Value(digits)) else None
  }

  lemma ParsePrintedInt(n: int)
    requires -INT64_LIMIT <= n < INT64_LIMIT
    ensures ParseInt(PrintInt(n)) == Some(n)
  {
    if n < 0 {
      assert ("-" + PrintNat(-n))[1..] == PrintNat(-n);
    } else {
      assert IsDigit(PrintNat(n)[0]);
    }
  }

  lemma PrintIntInjective(a: int, b: int)
    requires PrintInt(a) == PrintInt(b)
    ensures a == b
  {
    if a < 0 && b < 0 {
      assert PrintInt(a)[1..] == PrintNat(-a) && PrintInt(b)[1..] == PrintNat(-b);
    }
    assert a >= 0 ==> IsDigit(PrintInt(a)[0]);
    assert b >= 0 ==> IsDigit(PrintInt(b)[0]);
  }

  /** A printed number holds digits only, after its sign. */
  lemma PrintIntChars(n: int)
    ensures forall i | 0 <= i < |PrintInt(n)| :: IsDigit(PrintInt(n)[i]) || PrintInt(n)[i] == '-'
    ensures n >= 0 ==> AllDigits(PrintInt(n))
  {
  }
}
