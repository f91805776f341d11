/** Integers as decimal text: FormatInt and FormatUint of Go's strconv, and ParseInt and ParseUint
    in base 10, with their ranges. */
module Decimals {
  import opened Options

  const MIN_INT64: int := -0x8000_0000_0000_0000
  const MAX_INT64: int := 0x7fff_ffff_ffff_ffff
  const MAX_UINT64: int := 0xffff_ffff_ffff_ffff

  function Digit(d: nat): char
    requires d < 10
  {
    '0' + d as char
  }

  predicate IsDigit(c: char) {
    '0' <= c <= '9'
  }

  function DigitValue(c: char): (d: nat)
    requires IsDigit(c)
    ensures d < 10
  {
    c as int - '0' as int
  }

  function FormatNat(n: nat): (s: string)
    ensures s != []
  {
    if n < 10 then [Digit(n)] else FormatNat(n / 10) + [Digit(n % 10)]
  }

  function FormatInt(i: int): string {
    if i < 0 then "-" + FormatNat(-i) else FormatNat(i)
  }

  predicate AllDigits(s: string) {
    s != [] && forall i :: 0 <= i < |s| ==> IsDigit(s[i])
  }

  function NatOf(s: string): nat
    requires forall i :: 0 <= i < |s| ==> IsDigit(s[i])
  {
    if s == [] then 0 else 10 * NatOf(s[..|s| - 1]) + DigitValue(s[|s| - 1])
  }

  /** ParseUint(s, 10, 64). */
  function ParseUint(s: string): (r: Option<int>)
    ensures r.Some? ==> 0 <= r.value <= MAX_UINT64
  {
    if AllDigits(s) && NatOf(s) <= MAX_UINT64 then Some(NatOf(s)) else None
  }

  /** ParseInt(s, 10, 64): one sign is allowed. */
  function ParseInt(s: string): (r: Option<int>)
    ensures r.Some? ==> MIN_INT64 <= r.value <= MAX_INT64
  {
    if s == [] then None
    else
      var negative := s[0] == '-';
      var digits := if s[0] == '-' || s[0] == '+' then s[1..] else s;
      if !AllDigits(digits) then None
      else
        var value := if negative then -(NatOf(digits) as int) else NatOf(digits);
        if MIN_INT64 <= value <= MAX_INT64 then Some(value) else None
  }

  lemma {:induction false} NatRoundTrip(n: nat)
    ensures AllDigits(FormatNat(n)) && NatOf(FormatNat(n)) == n
  {
    if n >= 10 {
      NatRoundTrip(n / 10);
      var s := FormatNat(n);
      assert s[..|s| - 1] == FormatNat(n / 10);
      assert s[|s| - 1] == Digit(n % 10);
    }
  }

  lemma UintRoundTrip(n: nat)
    requires n <= MAX_UINT64
    ensures ParseUint(FormatNat(n)) == Some(n)
  {
    NatRoundTrip(n);
  }

  lemma IntRoundTrip(i: int)
    requires MIN_INT64 <= i <= MAX_INT64
    ensures ParseInt(FormatInt(i)) == Some(i)
  {
    if i < 0 {
      NatRoundTrip(-i);
      assert FormatInt(i)[1..] == FormatNat(-i);
    } else {
      NatRoundTrip(i);
      assert IsDigit(FormatNat(i)[0]);
    }
  }

  /** Distinct integers have distinct texts. */
  lemma FormatInjective(i: int, j: int)
    requires FormatInt(i) == FormatInt(j)
    ensures i == j
  {
    NatRoundTrip(if i < 0 then -i else i);
    NatRoundTrip(if j < 0 then -j else j);
    assert i < 0 ==> FormatInt(i)[0] == '-' && FormatInt(i)[1..] == FormatNat(-i);
    assert j < 0 ==> FormatInt(j)[0] == '-' && FormatInt(j)[1..] == FormatNat(-j);
    assert i >= 0 ==> IsDigit(FormatInt(i)[0]);
    assert j >= 0 ==> IsDigit(FormatInt(j)[0]);
  }
}
