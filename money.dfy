/**
 * The invoice's `formatCurrency`: a currency symbol followed by the amount
 * with exactly two fraction digits and the digit grouping of the `en-IN`
 * locale (the last three integer digits form one group, the digits before
 * them are grouped in pairs: 12,34,567.00). Amounts are exact reals; the
 * rounding to hundredths is done once, halves away from zero, and a
 * negative amount carries a minus sign between the symbol and the digits.
 * `ParseCurrency` reads such a string back, so that formatting is shown
 * to lose nothing but the rounding.
 */
module Money {
  import opened Wrappers

  predicate IsDigit(c: char) { '0' <= c <= '9' }

  predicate AllDigits(s: string) { forall i :: 0 <= i < |s| ==> IsDigit(s[i]) }

  function DigitChar(d: nat): char
    requires d < 10
  {
    ('0' as int + d) as char
  }

  function DigitValue(c: char): nat
    requires IsDigit(c)
  {
    c as int - '0' as int
  }

  /** Decimal digits of `n`, without leading zeros. */
  function NatToString(n: nat): (s: string)
    ensures |s| >= 1 && AllDigits(s)
    ensures |s| > 1 ==> s[0] != '0'
  {
    if n < 10 then [DigitChar(n)] else NatToString(n / 10) + [DigitChar(n % 10)]
  }

  /** The number a string of decimal digits denotes. */
  function ParseNat(s: string): nat
    requires AllDigits(s)
  {
    if s == [] then 0 else 10 * ParseNat(s[..|s| - 1]) + DigitValue(s[|s| - 1])
  }

  lemma {:induction false} ParseNatToString(n: nat)
    ensures ParseNat(NatToString(n)) == n
  {
    var s := NatToString(n);
    if n >= 10 {
      assert s[..|s| - 1] == NatToString(n / 10);
      ParseNatToString(n / 10);
    }
  }

  /** The decimal text JavaScript gives an integer: a minus sign for a negative one. */
  function IntToString(q: int): (s: string)
    ensures |s| >= 1
    ensures q >= 0 ==> AllDigits(s) && ParseNat(s) == q
    ensures q < 0 ==> s[0] == '-' && AllDigits(s[1..]) && ParseNat(s[1..]) == -q
    ensures q >= 0 && |s| > 1 ==> s[0] != '0'
    ensures q < 0 && |s| > 2 ==> s[1] != '0'
  {
    ParseNatToString(if q < 0 then -q else q);
    if q < 0 then "-" + NatToString(-q) else NatToString(q)
  }

  /** Groups a digit string in pairs from the right: "12345" becomes "1,23,45". */
  function GroupPairs(s: string): string
    decreases |s|
  {
    if |s| <= 2 then s else GroupPairs(s[..|s| - 2]) + "," + s[|s| - 2..]
  }

  /** en-IN grouping of the integer digits: "1234567" becomes "12,34,567". */
  function GroupIndian(s: string): string {
    if |s| <= 3 then s else GroupPairs(s[..|s| - 3]) + "," + s[|s| - 3..]
  }

  /** The string with every comma removed. */
  function StripCommas(s: string): string {
    if s == [] then [] else (if s[0] == ',' then [] else [s[0]]) + StripCommas(s[1..])
  }

  /** A string in which the commas split the text into pairs, except a first group of one or two. */
  predicate PairGrouped(r: string)
    decreases |r|
  {
    if ',' !in r then 1 <= |r| <= 2
    else |r| >= 4 && r[|r| - 3] == ',' && ',' !in r[|r| - 2..] && PairGrouped(r[..|r| - 3])
  }

  /** The en-IN layout: a last group of three, pairs before it, a first group of one or two. */
  predicate IndianGrouped(r: string) {
    if ',' !in r then 1 <= |r| <= 3
    else |r| >= 5 && r[|r| - 4] == ',' && ',' !in r[|r| - 3..] && PairGrouped(r[..|r| - 4])
  }

  lemma {:induction false} StripCommasAppend(a: string, b: string)
    ensures StripCommas(a + b) == StripCommas(a) + StripCommas(b)
  {
    if a != [] {
      assert (a + b)[0] == a[0];
      assert (a + b)[1..] == a[1..] + b;
      StripCommasAppend(a[1..], b);
    } else {
      assert a + b == b;
    }
  }

  lemma {:induction false} StripCommasNone(s: string)
    requires ',' !in s
    ensures StripCommas(s) == s
  {
    if s != [] {
      assert ',' !in s[1..];
      StripCommasNone(s[1..]);
    }
  }

  /** Stripping the comma placed between two comma-free parts gives back their concatenation. */
  lemma StripJoin(g: string, tail: string)
    requires ',' !in tail
    ensures StripCommas(g + "," + tail) == StripCommas(g) + tail
  {
    StripCommasAppend(g + ",", tail);
    StripCommasAppend(g, ",");
    StripCommasNone(tail);
  }

  predicate DigitsOrCommas(r: string) { forall i :: 0 <= i < |r| ==> IsDigit(r[i]) || r[i] == ',' }

  lemma {:induction false} GroupPairsStrip(s: string)
    requires ',' !in s
    ensures StripCommas(GroupPairs(s)) == s
    decreases |s|
  {
    if |s| > 2 {
      var head, tail := s[..|s| - 2], s[|s| - 2..];
      assert ',' !in head && ',' !in tail;
      GroupPairsStrip(head);
      StripJoin(GroupPairs(head), tail);
      assert s == head + tail;
    } else {
      StripCommasNone(s);
    }
  }

  lemma DigitsOrCommasJoin(g: string, tail: string)
    requires DigitsOrCommas(g) && AllDigits(tail)
    ensures DigitsOrCommas(g + "," + tail)
  {
    var r := g + "," + tail;
    forall i | 0 <= i < |r| ensures IsDigit(r[i]) || r[i] == ',' {
      if i < |g| { assert r[i] == g[i]; }
      else if i > |g| { assert r[i] == tail[i - |g| - 1]; }
    }
  }

  lemma NoCommaInDigits(s: string)
    requires AllDigits(s)
    ensures ',' !in s
  {
    assert forall i :: 0 <= i < |s| ==> IsDigit(s[i]);
  }

  lemma {:induction false} GroupPairsLayout(s: string)
    requires |s| >= 1 && AllDigits(s)
    ensures PairGrouped(GroupPairs(s)) && DigitsOrCommas(GroupPairs(s))
    decreases |s|
  {
    if |s| > 2 {
      var head, tail := s[..|s| - 2], s[|s| - 2..];
      GroupPairsLayout(head);
      var g := GroupPairs(head);
      var r := g + "," + tail;
      assert r[..|r| - 3] == g;
      assert r[|r| - 2..] == tail;
      assert r[|r| - 3] == ',';
      NoCommaInDigits(tail);
      assert ',' in r;
      DigitsOrCommasJoin(g, tail);
    } else {
      NoCommaInDigits(s);
    }
  }

  /** en-IN grouping only inserts commas: removing them gives the digits back. */
  lemma {:induction false} GroupIndianStrip(s: string)
    requires AllDigits(s)
    ensures StripCommas(GroupIndian(s)) == s
  {
    NoCommaInDigits(s);
    if |s| > 3 {
      var head, tail := s[..|s| - 3], s[|s| - 3..];
      assert ',' !in head && ',' !in tail;
      GroupPairsStrip(head);
      StripJoin(GroupPairs(head), tail);
      assert s == head + tail;
    } else {
      StripCommasNone(s);
    }
  }

  /** en-IN grouping lays the commas out as the locale does: pairs, then a last group of three. */
  lemma {:induction false} GroupIndianLayout(s: string)
    requires |s| >= 1 && AllDigits(s)
    ensures IndianGrouped(GroupIndian(s)) && DigitsOrCommas(GroupIndian(s))
  {
    NoCommaInDigits(s);
    if |s| > 3 {
      var head, tail := s[..|s| - 3], s[|s| - 3..];
      GroupPairsLayout(head);
      var g := GroupPairs(head);
      var r := g + "," + tail;
      assert r[..|r| - 4] == g;
      assert r[|r| - 3..] == tail;
      assert r[|r| - 4] == ',';
      assert ',' in r;
      NoCommaInDigits(tail);
      DigitsOrCommasJoin(g, tail);
    }
  }

  function Abs(x: real): real { if x < 0.0 then -x else x }

  /** `x` in whole hundredths, rounded to nearest with halves upwards. */
  function RoundedHundredths(x: real): (m: nat)
    requires x >= 0.0
    ensures m as real - 0.5 <= 100.0 * x < m as real + 0.5
  {
    (100.0 * x + 0.5).Floor
  }

  /** The signed amount in minor units that the formatted text shows: halves go away from zero. */
  function MinorUnits(x: real): (m: int)
    ensures -0.5 <= m as real - 100.0 * x <= 0.5
    ensures x >= 0.0 ==> m >= 0
    ensures x <= 0.0 ==> m <= 0
  {
    if x < 0.0 then -(RoundedHundredths(-x) as int) else RoundedHundredths(x)
  }

  /** The two fraction digits of an amount of `m` hundredths. */
  function Cents(m: nat): string {
    var c := m % 100;
    [DigitChar(c / 10), DigitChar(c % 10)]
  }

  /** The text after the symbol: a minus sign when `negative`, the grouped integer digits, '.', two digits. */
  function AmountText(negative: bool, m: nat): string {
    (if negative then "-" else "") + GroupIndian(NatToString(m / 100)) + "." + Cents(m)
  }

  /** `formatCurrency(n)`: the symbol followed by the amount rounded to hundredths. */
  function FormatCurrency(symbol: string, x: real): (r: string)
    ensures |r| >= |symbol| + 4 && r[..|symbol|] == symbol
    ensures r[|r| - 3] == '.' && IsDigit(r[|r| - 2]) && IsDigit(r[|r| - 1])
    ensures x == 0.0 ==> r == symbol + "0.00"
  {
    symbol + AmountText(x < 0.0, RoundedHundredths(Abs(x)))
  }

  /** Reads "<grouped digits>.<two digits>" back as a count of hundredths. */
  function ParseUnsigned(u: string): Option<nat> {
    var n := |u|;
    if n < 4 || u[n - 3] != '.' || !IsDigit(u[n - 2]) || !IsDigit(u[n - 1]) then None
    else
      var integral := StripCommas(u[..n - 3]);
      if integral == [] || !AllDigits(integral) then None
      else Some(100 * ParseNat(integral) + 10 * DigitValue(u[n - 2]) + DigitValue(u[n - 1]))
  }

  function Signed(negative: bool, m: nat): int { if negative then -(m as int) else m }

  /** Reads a formatted amount back as signed minor units, or None when `s` is not in that form. */
  function ParseCurrency(symbol: string, s: string): Option<int> {
    if |s| < |symbol| || s[..|symbol|] != symbol then None
    else
      var body := s[|symbol|..];
      var negative := |body| > 0 && body[0] == '-';
      match ParseUnsigned(if negative then body[1..] else body)
      case Some(v) => Some(Signed(negative, v))
      case None => None
  }

  lemma SplitHundredths(m: nat)
    ensures m == 100 * (m / 100) + 10 * (m % 100 / 10) + m % 100 % 10
  {
    var c := m % 100;
    assert m == 100 * (m / 100) + c;
    assert c == 10 * (c / 10) + c % 10;
  }

  lemma DigitRoundTrip(d: nat)
    requires d < 10
    ensures IsDigit(DigitChar(d)) && DigitValue(DigitChar(d)) == d
  {
  }

  lemma {:induction false} ParseUnsignedFormat(m: nat)
    ensures ParseUnsigned(GroupIndian(NatToString(m / 100)) + "." + Cents(m)) == Some(m)
  {
    var digits := NatToString(m / 100);
    var grouped := GroupIndian(digits);
    var u := grouped + "." + Cents(m);
    var n := |u|;
    assert u[..n - 3] == grouped;
    var d1, d0 := m % 100 / 10, m % 100 % 10;
    assert u[n - 3] == '.';
    assert u[n - 2] == DigitChar(d1) && u[n - 1] == DigitChar(d0);
    DigitRoundTrip(d1);
    DigitRoundTrip(d0);
    GroupIndianStrip(digits);
    assert StripCommas(u[..n - 3]) == digits;
    ParseNatToString(m / 100);
    SplitHundredths(m);
  }

  /** The unsigned text never starts with a minus sign. */
  lemma UnsignedStart(m: nat)
    ensures var u := GroupIndian(NatToString(m / 100)) + "." + Cents(m); |u| > 0 && u[0] != '-'
  {
    var digits := NatToString(m / 100);
    GroupIndianLayout(digits);
    var u := GroupIndian(digits) + "." + Cents(m);
    assert u[0] == GroupIndian(digits)[0];
  }

  /** What follows the symbol in a formatted amount is read back as the sign and the hundredths. */
  lemma {:induction false} ParseAmountText(symbol: string, negative: bool, m: nat)
    ensures ParseCurrency(symbol, symbol + AmountText(negative, m)) == Some(Signed(negative, m))
  {
    var unsigned := GroupIndian(NatToString(m / 100)) + "." + Cents(m);
    var body := AmountText(negative, m);
    var r := symbol + body;
    assert r[..|symbol|] == symbol && r[|symbol|..] == body;
    UnsignedStart(m);
    assert body == (if negative then "-" else "") + unsigned;
    assert (|body| > 0 && body[0] == '-') == negative;
    assert (if negative then body[1..] else body) == unsigned;
    ParseUnsignedFormat(m);
  }

  /** Formatting loses nothing but the rounding to hundredths. */
  lemma FormatCurrencyRoundTrip(symbol: string, x: real)
    ensures ParseCurrency(symbol, FormatCurrency(symbol, x)) == Some(MinorUnits(x))
  {
    ParseAmountText(symbol, x < 0.0, RoundedHundredths(Abs(x)));
  }

  lemma ThousandDigits()
    ensures GroupIndian(NatToString(1234)) == "1,234"
  {
    assert NatToString(1234) == "1234" by {
      assert NatToString(12) == "12";
      assert NatToString(123) == "123";
    }
    assert "1234"[..1] == "1" && "1234"[1..] == "234";
  }

  /** The whole part of an amount as shown: canonical digits of `n`, laid out in en-IN groups. */
  lemma WholePartLayout(n: nat)
    ensures var whole := NatToString(n);
            var g := GroupIndian(whole);
            && (|whole| > 1 ==> whole[0] != '0') && ParseNat(whole) == n
            && IndianGrouped(g) && DigitsOrCommas(g) && StripCommas(g) == whole
  {
    ParseNatToString(n);
    GroupIndianLayout(NatToString(n));
    GroupIndianStrip(NatToString(n));
  }

  /**
   * The shape of the formatted text: the symbol, a minus sign exactly for a
   * negative amount, the whole part of the rounded amount as canonical
   * digits laid out in en-IN groups, '.', and the two hundredths digits.
   */
  lemma FormatCurrencyLayout(symbol: string, x: real)
    ensures var m := RoundedHundredths(Abs(x));
            var whole := NatToString(m / 100);
            var g := GroupIndian(whole);
            && (|whole| > 1 ==> whole[0] != '0') && ParseNat(whole) == m / 100
            && IndianGrouped(g) && DigitsOrCommas(g) && StripCommas(g) == whole
            && FormatCurrency(symbol, x) == symbol + ((if x < 0.0 then "-" else "") + g + "." + Cents(m))
            && Cents(m) == [DigitChar(m % 100 / 10), DigitChar(m % 10)]
  {
    var m := RoundedHundredths(Abs(x));
    assert FormatCurrency(symbol, x) == symbol + ((if x < 0.0 then "-" else "") + GroupIndian(NatToString(m / 100)) + "." + Cents(m));
    WholePartLayout(m / 100);
  }

  /** Zero is shown as the symbol followed by 0.00. */
  lemma FormatCurrencyZero()
    ensures FormatCurrency("₹", 0.0) == "₹0.00"
  {
  }

  /** An amount whose integer part needs a single comma, with a trailing zero in the fraction. */
  lemma FormatCurrencyThousand()
    ensures FormatCurrency("₹", 1234.5) == "₹1,234.50"
  {
    assert RoundedHundredths(Abs(1234.5)) == 123450;
    ThousandDigits();
    assert Cents(123450) == "50";
  }
}
