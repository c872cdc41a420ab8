/** Character searches and number formatting from the C++ standard library that the modelled code uses. */
module Strings {
  import opened Wrappers

  /** Position of the first occurrence of `c` in `s`, as std::string::find does for one character. */
  function IndexOf(s: string, c: char): (r: Option<nat>)
    ensures r.Some? ==> r.value < |s| && s[r.value] == c && c !in s[..r.value]
    ensures r.None? ==> c !in s
  {
    if |s| == 0 then None
    else if s[0] == c then Some(0)
    else match IndexOf(s[1..], c)
      case None => None
      case Some(i) => Some(i + 1)
  }

  /** Position of the last occurrence of `c` in `s`, as std::string::find_last_of does for a one-character set. */
  function LastIndexOf(s: string, c: char): (r: Option<nat>)
    ensures r.Some? ==> r.value < |s| && s[r.value] == c && c !in s[r.value + 1..]
    ensures r.None? ==> c !in s
  {
    if |s| == 0 then None
    else if s[|s| - 1] == c then Some(|s| - 1)
    else LastIndexOf(s[..|s| - 1], c)
  }

  /** The first occurrence of `c` in `prefix + [c] + suffix` is the one between them when `prefix` holds none. */
  lemma IndexOfJoin(prefix: string, c: char, suffix: string)
    requires c !in prefix
    ensures IndexOf(prefix + [c] + suffix, c) == Some(|prefix|)
  {
    var s := prefix + [c] + suffix;
    assert s[|prefix|] == c;
    assert s[..|prefix|] == prefix;
  }

  /** The last occurrence of `c` in `prefix + [c] + suffix` is the one between them when `suffix` holds none. */
  lemma LastIndexOfJoin(prefix: string, c: char, suffix: string)
    requires c !in suffix
    ensures LastIndexOf(prefix + [c] + suffix, c) == Some(|prefix|)
  {
    var s := prefix + [c] + suffix;
    assert s[|prefix|] == c;
    assert s[|prefix| + 1..] == suffix;
  }

  /** Decimal digit for 0 <= d < 10. */
  function DigitChar(d: nat): (c: char)
    requires d < 10
    ensures '0' <= c <= '9' && DigitValue(c) == d
  {
    ('0' as int + d) as char
  }

  /** Value of a decimal digit character. */
  function DigitValue(c: char): nat
    requires '0' <= c <= '9'
  {
    c as int - '0' as int
  }

  /** A nonempty run of decimal digits. */
  predicate IsDecimal(s: string)
  {
    |s| > 0 && forall i :: 0 <= i < |s| ==> '0' <= s[i] <= '9'
  }

  /** A run of decimal digits with no leading zero, unless it is the single digit "0". */
  predicate IsCanonicalDecimal(s: string)
  {
    IsDecimal(s) && (s[0] == '0' ==> |s| == 1)
  }

  /** The number a run of decimal digits denotes, most significant first. */
  function DecimalValue(s: string): (v: nat)
    requires IsDecimal(s)
    decreases |s|
  {
    if |s| == 1 then DigitValue(s[0])
    else 10 * DecimalValue(s[..|s| - 1]) + DigitValue(s[|s| - 1])
  }

  /** Decimal digits of a natural number, most significant first: they denote `n`, with no leading zero. */
  function NatToDecimal(n: nat): (s: string)
    ensures IsCanonicalDecimal(s) && DecimalValue(s) == n
  {
    if n < 10 then [DigitChar(n)]
    else
      var prefix := NatToDecimal(n / 10);
      var s := prefix + [DigitChar(n % 10)];
      assert s[..|s| - 1] == prefix;
      s
  }

  /** A digit run that starts with a nonzero digit denotes a positive number. */
  lemma {:induction false} LeadingDigitPositive(s: string)
    requires IsDecimal(s) && s[0] != '0'
    ensures DecimalValue(s) > 0
  {
    if |s| > 1 {
      LeadingDigitPositive(s[..|s| - 1]);
    }
  }

  /** Reading the digits of a canonical decimal and writing the number again gives the same digits. */
  lemma {:induction false} DecimalRoundTrip(s: string)
    requires IsCanonicalDecimal(s)
    ensures NatToDecimal(DecimalValue(s)) == s
  {
    if |s| > 1 {
      var prefix := s[..|s| - 1];
      var d := DigitValue(s[|s| - 1]);
      LeadingDigitPositive(prefix);
      DecimalRoundTrip(prefix);
      var v := DecimalValue(s);
      assert v == 10 * DecimalValue(prefix) + d;
      assert v / 10 == DecimalValue(prefix) && v % 10 == d;
      assert prefix + [s[|s| - 1]] == s;
    }
  }

  /** Two numbers with the same decimal text are equal. */
  lemma NatToDecimalInjective(a: nat, b: nat)
    requires NatToDecimal(a) == NatToDecimal(b)
    ensures a == b
  {
  }

  /**
   * Text of an integer as std::to_string writes it: a minus sign exactly for negative values,
   * followed by the canonical decimal digits of the magnitude.
   */
  function IntToString(n: int): (s: string)
    ensures |s| > 0 && (s[0] == '-' <==> n < 0)
    ensures s == (if n < 0 then "-" else "") + NatToDecimal(if n < 0 then -n else n)
    ensures n < 0 ==> IsCanonicalDecimal(s[1..]) && DecimalValue(s[1..]) == -n
    ensures n >= 0 ==> IsCanonicalDecimal(s) && DecimalValue(s) == n
  {
    if n < 0 then "-" + NatToDecimal(-n) else NatToDecimal(n)
  }

  /** The text identifies the integer. */
  lemma IntToStringInjective(a: int, b: int)
    requires IntToString(a) == IntToString(b)
    ensures a == b
  {
    if a < 0 {
      assert IntToString(a)[1..] == NatToDecimal(-a);
      assert IntToString(b)[1..] == NatToDecimal(-b);
    }
  }
}
