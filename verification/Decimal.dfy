/** Decimal rendering and parsing, as strconv.FormatInt and strconv.ParseInt do it in base 10. */
module Decimal {
  import opened Common

  const MIN_INT64: int := -0x8000_0000_0000_0000
  const MAX_INT64: int := 0x7fff_ffff_ffff_ffff

  predicate IsDigit(c: char) {
    '0' <= c <= '9'
  }

  predicate AllDigits(s: string) {
    forall i :: 0 <= i < |s| ==> IsDigit(s[i])
  }

  function DigitChar(d: nat): (c: char)
    requires d < 10
    ensures IsDigit(c) && DigitValue(c) == d
  {
    ('0' as int + d) as char
  }

  function DigitValue(c: char): (d: nat)
    requires IsDigit(c)
    ensures d < 10
  {
    c as int - '0' as int
  }

  function PrintNat(n: nat): (s: string)
    ensures |s| > 0 && AllDigits(s)
    ensures n > 0 ==> s[0] != '0'
  {
    if n < 10 then [DigitChar(n)] else PrintNat(n / 10) + [DigitChar(n % 10)]
  }

  function Print(n: int): string {
    if n < 0 then "-" + PrintNat(-n) else PrintNat(n)
  }

  /** The number a digit string denotes; leading zeros are allowed and "" denotes 0. */
  function NatValue(s: string): nat
    requires AllDigits(s)
  {
    if s == [] then 0 else 10 * NatValue(s[..|s| - 1]) + DigitValue(s[|s| - 1])
  }

  /** strconv.ParseInt(s, 10, 64): optional sign, at least one digit, int64 range. */
  function ParseInt64(s: string): (r: Option<int>)
    ensures r.Some? ==> MIN_INT64 <= r.value <= MAX_INT64
  {
    if s == [] then None else
    var negative := s[0] == '-';
    var body := if s[0] == '-' || s[0] == '+' then s[1..] else s;
    if body == [] || !AllDigits(body) then None else
    var n: int := if negative then 0 - NatValue(body) else NatValue(body);
    if MIN_INT64 <= n <= MAX_INT64 then Some(n) else None
  }

  lemma {:induction false} PrintNatRoundTrip(n: nat)
    ensures NatValue(PrintNat(n)) == n
  {
    var s := PrintNat(n);
    if n < 10 {
      assert s[..|s| - 1] == [];
    } else {
      PrintNatRoundTrip(n / 10);
      assert s[..|s| - 1] == PrintNat(n / 10);
    }
  }

  lemma PrintIsInjective(m: int, n: int)
    requires Print(m) == Print(n)
    ensures m == n
  {
    var a, b := if m < 0 then -m else m, if n < 0 then -n else n;
    assert m < 0 ==> Print(m)[1..] == PrintNat(-m);
    assert n < 0 ==> Print(n)[1..] == PrintNat(-n);
    assert m < 0 <==> Print(m)[0] == '-';
    assert n < 0 <==> Print(n)[0] == '-';
    PrintNatRoundTrip(a);
    PrintNatRoundTrip(b);
  }

  /** Every int64 survives the trip through its decimal text. */
  lemma ParsePrintRoundTrip(n: int)
    requires MIN_INT64 <= n <= MAX_INT64
    ensures ParseInt64(Print(n)) == Some(n)
  {
    if n < 0 {
      PrintNatRoundTrip(-n);
      assert Print(n)[1..] == PrintNat(-n);
    } else {
      PrintNatRoundTrip(n);
      assert IsDigit(PrintNat(n)[0]);
    }
  }
}
