/**
 * The price check of the dish form: the regular expression ^\d{1,3},\d{2}$
 * and the conversion of an accepted price to a number, kept here in integer
 * cents.
 */
module Price {
  import opened Options

  /** JavaScript's `\d`: an ASCII digit only. */
  predicate IsDigit(c: char) {
    '0' <= c <= '9'
  }

  predicate AllDigits(s: string) {
    forall i :: 0 <= i < |s| ==> IsDigit(s[i])
  }

  /** `s` is `k` digits, a comma, then two digits. */
  predicate SplitsAt(s: string, k: int) {
    0 <= k && |s| == k + 3 && AllDigits(s[..k]) && s[k] == ',' && AllDigits(s[k + 1..])
  }

  /** The whole of `s` matches ^\d{1,3},\d{2}$ (no multiline flag, so ^ and $ anchor the whole input). */
  predicate MatchesPricePattern(s: string) {
    SplitsAt(s, 1) || SplitsAt(s, 2) || SplitsAt(s, 3)
  }

  function DigitValue(c: char): (n: nat)
    requires IsDigit(c)
    ensures n < 10
  {
    c as int - '0' as int
  }

  /** The decimal value of a digit string, most significant digit first. */
  function DigitsValue(s: string): (n: nat)
    requires AllDigits(s)
  {
    if s == [] then 0 else DigitsValue(s[..|s| - 1]) * 10 + DigitValue(s[|s| - 1])
  }

  /**
   * The regex test followed by the comma-to-dot conversion: an accepted price
   * yields its value in cents, the integer part times one hundred plus the
   * two fraction digits; anything else is rejected.
   */
  function ParsePrice(price: string): (r: Option<nat>)
    ensures r.Some? <==> MatchesPricePattern(price)
    ensures r.Some? ==>
              r.value < 100000 &&
              r.value == DigitsValue(price[..|price| - 3]) * 100 + DigitsValue(price[|price| - 2..])
  {
    if 4 <= |price| <= 6 && SplitsAt(price, |price| - 3) then
      var intPart := price[..|price| - 3];
      var fraction := price[|price| - 2..];
      assert DigitsValue(intPart) < 1000 by { DigitsBound(intPart); }
      assert DigitsValue(fraction) < 100 by { DigitsBound(fraction); }
      Some(DigitsValue(intPart) * 100 + DigitsValue(fraction))
    else
      None
  }

  function Pow10(n: nat): (p: nat)
    ensures p >= 1
  {
    if n == 0 then 1 else 10 * Pow10(n - 1)
  }

  /** A string of n digits denotes a number below 10^n. */
  lemma {:induction false} DigitsBound(s: string)
    requires AllDigits(s)
    ensures DigitsValue(s) < Pow10(|s|)
  {
    if s != [] {
      DigitsBound(s[..|s| - 1]);
    }
  }

  function DigitChar(d: nat): (c: char)
    requires d < 10
    ensures IsDigit(c) && DigitValue(c) == d
  {
    ('0' as int + d) as char
  }

  /** The shortest decimal form of `n` (no leading zeros). */
  function NatToDigits(n: nat): (s: string)
    ensures AllDigits(s) && s != []
  {
    if n < 10 then [DigitChar(n)] else NatToDigits(n / 10) + [DigitChar(n % 10)]
  }

  lemma {:induction false} NatToDigitsValue(n: nat)
    ensures DigitsValue(NatToDigits(n)) == n
    ensures n < 1000 ==> |NatToDigits(n)| <= 3
  {
    if n >= 10 {
      NatToDigitsValue(n / 10);
      var s := NatToDigits(n);
      assert s[..|s| - 1] == NatToDigits(n / 10);
    }
  }

  /** How the form writes a price of `cents` (the placeholder format "00,00", without leading zeros). */
  function FormatPrice(cents: nat): string
    requires cents < 100000
  {
    NatToDigits(cents / 100) + [',', DigitChar(cents % 100 / 10), DigitChar(cents % 10)]
  }

  /** Every price below 1000,00 written in that format is accepted and read back exactly. */
  lemma PriceRoundTrip(cents: nat)
    requires cents < 100000
    ensures ParsePrice(FormatPrice(cents)) == Some(cents)
  {
    var s := FormatPrice(cents);
    var intPart := NatToDigits(cents / 100);
    NatToDigitsValue(cents / 100);
    assert s[..|s| - 3] == intPart;
    var fraction := s[|s| - 2..];
    assert fraction == [DigitChar(cents % 100 / 10), DigitChar(cents % 10)];
    assert fraction[..1] == [DigitChar(cents % 100 / 10)];
    assert DigitsValue(fraction[..1]) == cents % 100 / 10 by {
      assert fraction[..1][..0] == [];
    }
    assert DigitsValue(fraction) == cents % 100;
    assert SplitsAt(s, |s| - 3);
  }

  /** Sample accepted and rejected prices. */
  lemma PriceExamples()
    ensures ParsePrice("12,99") == Some(1299)
    ensures ParsePrice("5,00") == Some(500)
    ensures ParsePrice("012,50") == Some(1250)
    ensures ParsePrice("12.99") == None
    ensures ParsePrice("abc") == None
    ensures ParsePrice("1234,99") == None
    ensures ParsePrice("12,9") == None
    ensures ParsePrice(" 12,99") == None
  {
    assert "12,99"[..2] == "12" && "12"[..1] == "1" && "1"[..0] == "";
    assert DigitsValue("12") == 12;
    assert "12,99"[3..] == "99" && "99"[..1] == "9" && "9"[..0] == "";
    assert DigitsValue("99") == 99;
    assert "5,00"[..1] == "5" && "5,00"[2..] == "00" && "00"[..1] == "0";
    assert "012,50"[..3] == "012" && "012"[..2] == "01" && "01"[..1] == "0";
    assert "012,50"[4..] == "50" && "50"[..1] == "5";
    assert !IsDigit(" 12,99"[0]);
  }
}
