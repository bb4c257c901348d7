/** How the encoder renders integers: JavaScript's `String(n)` for an integer,
    and the transformation service's `N`-prefixed form for negative values
    (`N5` for -5), each with the parser that reads it back. */
module Numbers {

  predicate IsDigit(c: char)
  {
    '0' <= c <= '9'
  }

  predicate AllDigits(s: string)
  {
    forall i :: 0 <= i < |s| ==> IsDigit(s[i])
  }

  function DigitChar(d: nat): (c: char)
    requires d < 10
    ensures IsDigit(c)
  {
    ('0' as int + d) as char
  }

  function DigitValue(c: char): (d: nat)
    requires IsDigit(c)
    ensures d < 10
  {
    c as int - '0' as int
  }

  /** Decimal digits of `n`, most significant first, with no leading zero. */
  function NatToString(n: nat): (r: string)
    ensures |r| > 0 && AllDigits(r)
    ensures (r[0] == '0') == (n == 0)
    decreases n
  {
    if n < 10 then [DigitChar(n)]
    else NatToString(n / 10) + [DigitChar(n % 10)]
  }

  function ParseNat(s: string): nat
    requires AllDigits(s)
    decreases |s|
  {
    if s == [] then 0
    else 10 * ParseNat(s[..|s| - 1]) + DigitValue(s[|s| - 1])
  }

  /** Reading the digits back gives the number. */
  lemma {:induction false} ParseNatToString(n: nat)
    ensures ParseNat(NatToString(n)) == n
    decreases n
  {
    if n >= 10 {
      var r := NatToString(n);
      ParseNatToString(n / 10);
      assert r[..|r| - 1] == NatToString(n / 10);
    }
  }

  /** `String(n)` / `${n}` for an integer: a minus sign before the digits of a negative value. */
  function IntToString(n: int): (r: string)
    ensures |r| > 0
    ensures (r[0] == '-') == (n < 0)
  {
    if n < 0 then "-" + NatToString(-n) else NatToString(n)
  }

  function ParseInt(s: string): int
    requires |s| > 0
    requires s[0] == '-' ==> AllDigits(s[1..])
    requires s[0] != '-' ==> AllDigits(s)
  {
    if s[0] == '-' then 0 - ParseNat(s[1..]) as int else ParseNat(s)
  }

  lemma IntToStringRoundTrip(n: int)
    ensures var r := IntToString(n);
      (r[0] == '-' ==> AllDigits(r[1..])) && (r[0] != '-' ==> AllDigits(r)) &&
      ParseInt(r) == n
  {
    if n < 0 {
      ParseNatToString(-n);
      assert IntToString(n)[1..] == NatToString(-n);
    } else {
      ParseNatToString(n);
    }
  }

  /** `n < 0 ? `N${Math.abs(n)}` : n`: a negative value as `N` and its magnitude,
      so that the rendered value never carries a minus sign. */
  function NSigned(n: int): (r: string)
    ensures |r| > 0 && '-' !in r
    ensures (r[0] == 'N') == (n < 0)
  {
    if n < 0 then "N" + NatToString(-n) else NatToString(n)
  }

  function ParseNSigned(s: string): int
    requires |s| > 0
    requires s[0] == 'N' ==> AllDigits(s[1..])
    requires s[0] != 'N' ==> AllDigits(s)
  {
    if s[0] == 'N' then 0 - ParseNat(s[1..]) as int else ParseNat(s)
  }

  /** The `N` form reads back to the value it encodes. */
  lemma NSignedRoundTrip(n: int)
    ensures var r := NSigned(n);
      (r[0] == 'N' ==> AllDigits(r[1..])) && (r[0] != 'N' ==> AllDigits(r)) &&
      ParseNSigned(r) == n
  {
    if n < 0 {
      ParseNatToString(-n);
      assert NSigned(n)[1..] == NatToString(-n);
    } else {
      ParseNatToString(n);
    }
  }

}
