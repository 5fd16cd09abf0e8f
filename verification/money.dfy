/**
 * Prices and totals as exact counts of cents. bcmath at scale 2 on strings with at most
 * two decimals is exact integer arithmetic on cents; this module gives the price grammar,
 * the reading of a price string as cents, and the two-decimal rendering bcmath produces.
 */
module Money {
  import opened Outcomes

  predicate IsDigit(c: char) {
    '0' <= c <= '9'
  }

  predicate AllDigits(s: string) {
    forall i | 0 <= i < |s| :: IsDigit(s[i])
  }

  function DigitValue(c: char): nat
    requires IsDigit(c)
  {
    c as int - '0' as int
  }

  function Digit(d: nat): (c: char)
    requires d < 10
    ensures IsDigit(c) && DigitValue(c) == d
  {
    ('0' as int + d) as char
  }

  /** Value of a run of decimal digits, most significant first. */
  function DigitsValue(s: string): (v: nat)
    requires AllDigits(s)
    decreases |s|
  {
    if s == [] then 0 else DigitsValue(s[..|s| - 1]) * 10 + DigitValue(s[|s| - 1])
  }

  /** The decimal digits of n, without leading zeros. */
  function NatDigits(n: nat): (s: string)
    ensures |s| > 0 && AllDigits(s)
    decreases n
  {
    if n < 10 then [Digit(n)] else NatDigits(n / 10) + [Digit(n % 10)]
  }

  lemma {:induction false} NatDigitsValue(n: nat)
    ensures DigitsValue(NatDigits(n)) == n
    decreases n
  {
    if n >= 10 {
      NatDigitsValue(n / 10);
      var s := NatDigits(n);
      assert s[..|s| - 1] == NatDigits(n / 10);
    }
  }

  /**
   * The body of the price pattern `^\d+(\.\d{1,2})?$`: one or more digits, optionally
   * followed by a dot and one or two digits.
   */
  predicate IsDecimal(s: string): (b: bool)
    ensures b ==> |s| > 0 && IsDigit(s[0]) && IsDigit(s[|s| - 1])
    ensures b ==> forall i | 0 <= i < |s| :: IsDigit(s[i]) || (s[i] == '.' && |s| - 3 <= i)
    ensures b ==> forall i, j | 0 <= i < j < |s| && s[i] == '.' :: s[j] != '.'
  {
    || (|s| > 0 && AllDigits(s))
    || (|s| >= 3 && s[|s| - 2] == '.' && AllDigits(s[..|s| - 2]) && IsDigit(s[|s| - 1]))
    || (|s| >= 4 && s[|s| - 3] == '.' && AllDigits(s[..|s| - 3]) && AllDigits(s[|s| - 2..]))
  }

  /**
   * What `preg_match('/^\d+(\.\d{1,2})?$/', $s)` accepts: without the D modifier, PCRE's `$`
   * also matches just before a final newline, so a decimal followed by one "\n" passes.
   */
  predicate PricePattern(s: string): (p: bool)
    ensures IsDecimal(s) ==> p
    ensures p ==> |s| > 0 && IsDigit(s[0])
    ensures p && !IsDecimal(s) ==> |s| >= 2 && s[|s| - 1] == '\n' && IsDigit(s[|s| - 2])
  {
    IsDecimal(s) || (|s| > 0 && s[|s| - 1] == '\n' && IsDecimal(s[..|s| - 1]))
  }

  /** Index of the first '.' in s, or |s| when there is none. */
  function DotIndex(s: string): (k: nat)
    ensures k <= |s|
    ensures k < |s| ==> s[k] == '.'
    ensures forall i | 0 <= i < k :: s[i] != '.'
    decreases |s|
  {
    if s == [] || s[0] == '.' then 0 else 1 + DotIndex(s[1..])
  }

  /** Cents denoted by a fraction of one or two digits: ".5" is 50, ".05" is 5. */
  function FractionCents(f: string): (c: nat)
    requires 1 <= |f| <= 2 && AllDigits(f)
    ensures c < 100
  {
    if |f| == 1 then DigitValue(f[0]) * 10 else DigitValue(f[0]) * 10 + DigitValue(f[1])
  }

  /**
   * Reads a price string as cents: the digits before the first dot are whole units, the
   * one or two after it are the fraction. Anything else is not a price.
   */
  function ParseCents(s: string): (r: Option<nat>)
    ensures r.Some? ==> |s| > 0 && IsDigit(s[0]) && IsDigit(s[|s| - 1])
    ensures r.Some? ==> 0 < DotIndex(s) && AllDigits(s[..DotIndex(s)])
                        && r.value / 100 == DigitsValue(s[..DotIndex(s)])
  {
    var k := DotIndex(s);
    var whole := s[..k];
    if k == 0 || !AllDigits(whole) then None
    else if k == |s| then Some(DigitsValue(whole) * 100)
    else
      var frac := s[k + 1..];
      if 1 <= |frac| <= 2 && AllDigits(frac) then Some(DigitsValue(whole) * 100 + FractionCents(frac))
      else None
  }

  /** `bcadd`/`bcmul` output at scale 2: whole units, a dot, exactly two fraction digits. */
  function FormatCents(c: nat): (s: string)
    ensures |s| >= 4 && s[|s| - 3] == '.' && AllDigits(s[|s| - 2..]) && AllDigits(s[..|s| - 3])
  {
    NatDigits(c / 100) + "." + [Digit(c / 10 % 10), Digit(c % 10)]
  }

  /** When s[..k] is all digits and a dot (or the end) follows, the first dot is at k. */
  lemma DotIndexAfterDigits(s: string, k: nat)
    requires k <= |s| && AllDigits(s[..k])
    requires k < |s| ==> s[k] == '.'
    ensures DotIndex(s) == k
  {
    assert forall i | 0 <= i < k :: s[..k][i] == s[i];
  }

  lemma ParsedIsDecimal(s: string)
    requires ParseCents(s).Some?
    ensures IsDecimal(s)
  {
    var k := DotIndex(s);
    if k < |s| {
      var frac := s[k + 1..];
      if |frac| == 1 {
        assert s[..|s| - 2] == s[..k];
      } else {
        assert s[..|s| - 3] == s[..k];
        assert s[|s| - 2..] == frac;
      }
    } else {
      assert s[..k] == s;
    }
  }

  lemma DecimalIsParsed(s: string)
    requires IsDecimal(s)
    ensures ParseCents(s).Some?
  {
    if |s| > 0 && AllDigits(s) {
      assert s[..|s|] == s;
      DotIndexAfterDigits(s, |s|);
    } else if |s| >= 3 && s[|s| - 2] == '.' && AllDigits(s[..|s| - 2]) && IsDigit(s[|s| - 1]) {
      DotIndexAfterDigits(s, |s| - 2);
    } else {
      DotIndexAfterDigits(s, |s| - 3);
      assert s[|s| - 2..] == s[|s| - 3 + 1..];
    }
  }

  /** The parser accepts exactly the strings the price pattern's body describes. */
  lemma {:induction false} ParseCentsDefinedIffDecimal(s: string)
    ensures ParseCents(s).Some? <==> IsDecimal(s)
  {
    if ParseCents(s).Some? {
      ParsedIsDecimal(s);
    }
    if IsDecimal(s) {
      DecimalIsParsed(s);
    }
  }

  /** Rendering an amount and reading it back gives the same amount. */
  lemma FormatThenParse(c: nat)
    ensures ParseCents(FormatCents(c)) == Some(c)
    ensures IsDecimal(FormatCents(c))
  {
    var whole := NatDigits(c / 100);
    var s := FormatCents(c);
    assert s[..|whole|] == whole;
    DotIndexAfterDigits(s, |whole|);
    assert s[|whole| + 1..] == [Digit(c / 10 % 10), Digit(c % 10)];
    NatDigitsValue(c / 100);
    assert FractionCents(s[|whole| + 1..]) == c % 100;
    ParseCentsDefinedIffDecimal(s);
  }
}
