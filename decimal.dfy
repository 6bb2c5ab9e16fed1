/**
  Decimal rendering of integers, as Go's `strconv.FormatInt(n, 10)` and
  `fmt.Sprintf("%d", n)` produce it: an optional '-' and then the digits of
  the magnitude, without leading zeros. Subscription ids on the wire are
  these renderings, so the property the engines rely on is that rendering
  is injective; it follows from the parser below being its left inverse.
*/
module Decimal {

  predicate IsDigit(c: char) { '0' <= c <= '9' }

  predicate IsDigits(s: string) { forall i :: 0 <= i < |s| ==> IsDigit(s[i]) }

  function DigitChar(d: nat): (c: char)
    requires d < 10
    ensures IsDigit(c)
    ensures (c == '0') == (d == 0)
  {
    (('0' as int) + d) as char
  }

  function DigitValue(c: char): (d: nat)
    requires IsDigit(c)
    ensures d < 10 && DigitChar(d) == c
  {
    (c as int) - ('0' as int)
  }

  /** The decimal digits of `n`, most significant first, no leading zero. */
  function FormatNat(n: nat): (s: string)
    ensures |s| >= 1 && IsDigits(s)
    ensures (s[0] == '0') == (n == 0)
    decreases n
  {
    if n < 10 then [DigitChar(n)] else FormatNat(n / 10) + [DigitChar(n % 10)]
  }

  /** `strconv.FormatInt(i, 10)` for any integer: a '-' before a negative magnitude. */
  function FormatInt(i: int): (s: string)
    ensures |s| >= 1
    ensures (s[0] == '-') == (i < 0)
  {
    if i < 0 then "-" + FormatNat(-i) else FormatNat(i)
  }

  /** Reads back a string of digits. */
  function ParseNat(s: string): (n: nat)
    requires IsDigits(s)
    decreases |s|
  {
    if s == [] then 0 else 10 * ParseNat(s[..|s| - 1]) + DigitValue(s[|s| - 1])
  }

  /** Reads back the output of FormatInt. */
  function ParseInt(s: string): (i: int)
    requires |s| >= 1
    requires IsDigits(if s[0] == '-' then s[1..] else s)
  {
    if s[0] == '-' then 0 - ParseNat(s[1..]) else ParseNat(s) as int
  }

  /** Parsing undoes rendering. */
  lemma {:induction false} ParseFormatNat(n: nat)
    ensures ParseNat(FormatNat(n)) == n
  {
    if n >= 10 {
      var s := FormatNat(n);
      assert s[..|s| - 1] == FormatNat(n / 10);
      ParseFormatNat(n / 10);
    }
  }

  lemma ParseFormatInt(i: int)
    ensures IsDigits(if FormatInt(i)[0] == '-' then FormatInt(i)[1..] else FormatInt(i))
    ensures ParseInt(FormatInt(i)) == i
  {
    if i < 0 {
      assert FormatInt(i)[1..] == FormatNat(-i);
      ParseFormatNat(-i);
    } else {
      ParseFormatNat(i);
    }
  }

  /** Distinct numbers never render to the same id. */
  lemma FormatNatInjective(a: nat, b: nat)
    ensures FormatNat(a) == FormatNat(b) <==> a == b
  {
    ParseFormatNat(a);
    ParseFormatNat(b);
  }

  lemma FormatIntInjective(a: int, b: int)
    ensures FormatInt(a) == FormatInt(b) <==> a == b
  {
    ParseFormatInt(a);
    ParseFormatInt(b);
  }

  /** The renderings of the values 1..counter an id counter has produced. */
  function IssuedIds(counter: nat): set<string> {
    set k | 1 <= k <= counter :: FormatNat(k)
  }

  /** Issuing one more id adds exactly its rendering, which is new. */
  lemma IssuedIdsStep(c: nat)
    ensures IssuedIds(c + 1) == IssuedIds(c) + {FormatNat(c + 1)}
    ensures FormatNat(c + 1) !in IssuedIds(c)
  {
    if FormatNat(c + 1) in IssuedIds(c) {
      var k :| 1 <= k <= c && FormatNat(k) == FormatNat(c + 1);
      FormatNatInjective(k, c + 1);
    }
  }
}
