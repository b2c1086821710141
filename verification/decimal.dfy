/**
 Decimal rendering of integers, as the `%d` verb writes them (an optional
 minus sign, then the digits without leading zeros), and its inverse.
 */
module DecimalFormat {
  import opened GerritTypes

  predicate IsDigit(c: char) {
    '0' <= c <= '9'
  }

  predicate AllDigits(s: string) {
    forall i :: 0 <= i < |s| ==> IsDigit(s[i])
  }

  function DigitChar(d: nat): (c: char)
    requires d < 10
    ensures IsDigit(c) && c as int - '0' as int == d
  {
    (48 + d) as char
  }

  /** The digits of `n`, most significant first. */
  function NatDigits(n: nat): (s: string)
    ensures |s| > 0 && AllDigits(s)
    ensures |s| > 1 ==> s[0] != '0'
    ensures s[0] == '0' <==> n == 0
    decreases n
  {
    if n < 10 then [DigitChar(n)] else NatDigits(n / 10) + [DigitChar(n % 10)]
  }

  /** `n` as `%d` prints it. */
  function Decimal(n: int): (s: string)
    ensures |s| > 0 && forall i :: 0 <= i < |s| ==> IsDigit(s[i]) || (i == 0 && s[i] == '-')
    ensures s[0] == '-' <==> n < 0
    ensures n >= 0 && |s| > 1 ==> s[0] != '0'
    ensures n < 0 ==> |s| > 1 && s[1] != '0'
    ensures '/' !in s
  {
    if n < 0 then "-" + NatDigits(-n) else NatDigits(n)
  }

  /** The value of a string of digits. */
  function DigitsValue(s: string): nat
    requires AllDigits(s)
  {
    if s == [] then 0 else 10 * DigitsValue(s[..|s| - 1]) + (s[|s| - 1] as int - '0' as int)
  }

  /** Digits as `%d` writes them: at least one, and no leading zero unless the number is zero. */
  predicate CanonicalDigits(s: string) {
    |s| > 0 && AllDigits(s) && (|s| > 1 ==> s[0] != '0')
  }

  /**
   Reads back what `Decimal` writes, and nothing else: canonical digits,
   or a minus sign followed by canonical digits that do not start with zero.
   */
  function ParseDecimal(s: string): Option<int>
  {
    if s != [] && s[0] == '-' then
      if CanonicalDigits(s[1..]) && s[1] != '0' then Some(-(DigitsValue(s[1..]) as int)) else None
    else if CanonicalDigits(s) then Some(DigitsValue(s))
    else None
  }

  lemma {:induction false} NatDigitsRoundTrip(n: nat)
    ensures DigitsValue(NatDigits(n)) == n
    decreases n
  {
    if n >= 10 {
      var s := NatDigits(n);
      assert s[..|s| - 1] == NatDigits(n / 10);
      NatDigitsRoundTrip(n / 10);
    }
  }

  /** Every integer is recovered from its decimal text. */
  lemma DecimalRoundTrip(n: int)
    ensures ParseDecimal(Decimal(n)) == Some(n)
  {
    if n < 0 {
      assert Decimal(n)[1..] == NatDigits(-n);
      NatDigitsRoundTrip(-n);
    } else {
      NatDigitsRoundTrip(n);
    }
  }

  /** Canonical digits are the digits of their own value. */
  lemma {:induction false} NatDigitsOfValue(d: string)
    requires CanonicalDigits(d)
    ensures NatDigits(DigitsValue(d)) == d
    decreases |d|
  {
    if |d| > 1 {
      var p := d[..|d| - 1];
      assert CanonicalDigits(p) && p[0] == d[0];
      NatDigitsOfValue(p);
      var v, last := DigitsValue(d), d[|d| - 1] as int - '0' as int;
      assert DigitsValue(p) != 0 by {
        assert NatDigits(DigitsValue(p))[0] != '0';
      }
      assert v / 10 == DigitsValue(p) && v % 10 == last;
      assert DigitChar(last) == d[|d| - 1];
      assert d == p + [d[|d| - 1]];
    }
  }

  /** The only text that reads back as `n` is the text `%d` prints for `n`. */
  lemma ParseDecimalCanonical(s: string, n: int)
    requires ParseDecimal(s) == Some(n)
    ensures Decimal(n) == s
  {
    if s[0] == '-' {
      var d := s[1..];
      NatDigitsOfValue(d);
      assert DigitsValue(d) != 0 by {
        assert NatDigits(DigitsValue(d))[0] != '0';
      }
      assert s == "-" + d;
    } else {
      NatDigitsOfValue(s);
    }
  }
}
