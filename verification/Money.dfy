/** Money as text: reading dollars into cents and printing cents as dollars. */
module Money {
  import opened Common
  import opened Calendar

  datatype MoneyError = NotMoney | NotNonnegativeCents

  /** A decimal in plain notation: its digits read as one number, and how many follow the point. */
  datatype Decimal = Decimal(negative: bool, digits: nat, places: nat)

  predicate AllDigits(s: string) { forall i :: 0 <= i < |s| ==> '0' <= s[i] <= '9' }

  function Value(s: string): nat
    requires AllDigits(s)
  {
    if s == [] then 0 else 10 * Value(s[..|s| - 1]) + (s[|s| - 1] as int - '0' as int)
  }

  function PointIn(s: string): (p: nat)
    ensures p <= |s| && (p < |s| ==> s[p] == '.')
  {
    if s == [] || s[0] == '.' then 0 else 1 + PointIn(s[1..])
  }

  function ParseUnsigned(negative: bool, body: string): Option<Decimal> {
    var p := PointIn(body);
    var whole, part := body[..p], if p < |body| then body[p + 1..] else [];
    if !AllDigits(whole) || !AllDigits(part) || whole + part == [] then None
    else Some(Decimal(negative, Value(whole + part), |part|))
  }

  /** `Decimal(text)`, without exponents. */
  function ParseDecimal(text: string): Option<Decimal> {
    if text != [] && (text[0] == '-' || text[0] == '+') then ParseUnsigned(text[0] == '-', text[1..])
    else ParseUnsigned(false, text)
  }

  /** Digits of which none, one or two follow the point, as cents. */
  function InHundredths(digits: nat, places: nat): nat {
    if places == 2 then digits else if places == 1 then 10 * digits else 100 * digits
  }

  /** `_cents`: refuses what is not money, a negative amount, and more than two places. */
  function CentsOf(text: string): Result<nat, MoneyError> {
    match ParseDecimal(text)
    case None => Err(NotMoney)
    case Some(d) =>
      if (d.negative && d.digits > 0) || d.places > 2 then Err(NotNonnegativeCents)
      else Ok(InHundredths(d.digits, d.places))
  }

  function Digits(n: nat): string { if n < 10 then [Digit(n)] else Digits(n / 10) + [Digit(n % 10)] }

  /** `_usd`. */
  function Usd(cents: int): string {
    var c := if cents < 0 then -cents else cents;
    (if cents < 0 then "-" else "") + (Digits(c / 100) + ("." + Pad2(c % 100)))
  }

  // ---------------------------------------------------------------- reading back what was printed

  lemma {:induction false} DigitsValue(n: nat)
    ensures AllDigits(Digits(n)) && Value(Digits(n)) == n && Digits(n) != []
  {
    if n >= 10 { DigitsValue(n / 10); }
  }

  lemma AppendTwo(s: string, n: nat)
    requires AllDigits(s) && n <= 99
    ensures AllDigits(s + Pad2(n)) && Value(s + Pad2(n)) == 100 * Value(s) + n
  {
    var t := s + Pad2(n);
    assert t[..|t| - 1] == s + [Digit(n / 10)];
    assert t[..|t| - 1][..|s|] == s;
    assert Value(t[..|t| - 1]) == 10 * Value(s) + n / 10;
  }

  lemma {:induction false} PointAfterDigits(s: string, rest: string)
    requires AllDigits(s) && rest != [] && rest[0] == '.'
    ensures PointIn(s + rest) == |s|
  {
    if s != [] {
      assert (s + rest)[1..] == s[1..] + rest;
      PointAfterDigits(s[1..], rest);
    } else {
      assert s + rest == rest;
    }
  }

  /** How digits, a point and digits are read. */
  lemma ParsesPlain(negative: bool, whole: string, part: string)
    requires AllDigits(whole) && AllDigits(part) && whole != []
    ensures ParseUnsigned(negative, whole + ("." + part)) == Some(Decimal(negative, Value(whole + part), |part|))
  {
    hide Value, PointIn, AllDigits;
    SplitsAtPoint(whole, part);
  }

  lemma SplitsAtPoint(whole: string, part: string)
    requires AllDigits(whole)
    ensures var body := whole + ("." + part);
            PointIn(body) == |whole| && |whole| < |body| && body[..|whole|] == whole && body[|whole| + 1..] == part
  {
    hide AllDigits, PointIn;
    PointAfterDigits(whole, "." + part);
  }

  lemma Signed(negative: bool, body: string)
    requires body != [] && '0' <= body[0] <= '9'
    ensures ParseDecimal((if negative then "-" else "") + body) == ParseUnsigned(negative, body)
  {
    hide ParseUnsigned;
    assert ("-" + body)[1..] == body && "" + body == body;
  }

  lemma UsdParses(cents: int)
    ensures ParseDecimal(Usd(cents)) == Some(Decimal(cents < 0, if cents < 0 then -cents else cents, 2))
  {
    hide ParseDecimal, ParseUnsigned, Value, Digits, Pad2;
    var c: nat := if cents < 0 then -cents else cents;
    DigitsValue(c / 100);
    AppendTwo(Digits(c / 100), c % 100);
    assert AllDigits(Pad2(c % 100)) by { PadIsDigits(c % 100); }
    ParsesPlain(cents < 0, Digits(c / 100), Pad2(c % 100));
    Signed(cents < 0, Digits(c / 100) + ("." + Pad2(c % 100)));
  }

  lemma PadIsDigits(n: nat)
    requires n <= 99
    ensures AllDigits(Pad2(n))
  {}

  /** `_cents` undoes `_usd` on every amount that is not negative, and refuses every negative one. */
  lemma CentsUndoUsd(cents: int)
    ensures CentsOf(Usd(cents)) == if cents >= 0 then Ok(cents) else Err(NotNonnegativeCents)
  {
    UsdParses(cents);
  }

  /** So no two amounts print alike. */
  lemma UsdIsInjective(a: int, b: int)
    requires Usd(a) == Usd(b)
    ensures a == b
  {
    UsdParses(a);
    UsdParses(b);
  }

  // ---------------------------------------------------------------- reading what others write

  lemma {:induction false} NoPoint(s: string)
    requires AllDigits(s)
    ensures PointIn(s) == |s|
  {
    if s != [] { NoPoint(s[1..]); }
  }

  ghost function DigitOf(c: char): int { c as int - '0' as int }

  lemma LastDigit(s: string)
    requires AllDigits(s) && s != []
    ensures AllDigits(s[..|s| - 1]) && Value(s) == 10 * Value(s[..|s| - 1]) + DigitOf(s[|s| - 1])
  {}

  lemma PowerNext(n: nat)
    requires n > 0
    ensures Power(n) == 10 * Power(n - 1)
  {}

  lemma Shift(x: int, power: int, y: int, digit: int)
    ensures 10 * (x * power + y) + digit == x * (10 * power) + (10 * y + digit)
  {}

  lemma {:induction false} ValueOfConcat(a: string, b: string)
    requires AllDigits(a) && AllDigits(b)
    ensures AllDigits(a + b) && Value(a + b) == Value(a) * Power(|b|) + Value(b)
    decreases |b|
  {
    if b == [] {
      assert a + b == a;
    } else {
      hide Value, Power, DigitOf;
      var front := b[..|b| - 1];
      LastDigit(b);
      ValueOfConcat(a, front);
      assert (a + b)[..|a + b| - 1] == a + front;
      LastDigit(a + b);
      PowerNext(|b|);
      Shift(Value(a), Power(|front|), Value(front), DigitOf(b[|b| - 1]));
    }
  }

  ghost function Power(n: nat): nat { if n == 0 then 1 else 10 * Power(n - 1) }

  lemma Scaled(whole: nat, part: nat, places: nat)
    requires places <= 2
    ensures InHundredths(whole * Power(places) + part, places) == 100 * whole + part * Power(2 - places)
  {
    Powers();
  }

  lemma WholeReads(whole: string)
    requires AllDigits(whole) && whole != []
    ensures CentsOf(whole) == Ok(100 * Value(whole))
  {
    hide Value, PointIn, ParseUnsigned;
    ParsesWhole(whole);
  }

  lemma PartReads(whole: string, part: string)
    requires AllDigits(whole) && AllDigits(part) && whole != []
    ensures AllDigits(whole + part)
    ensures CentsOf(whole + ("." + part))
         == if |part| > 2 then Err(NotNonnegativeCents) else Ok(InHundredths(Value(whole + part), |part|))
  {
    hide Value, PointIn, ParseUnsigned;
    var text := whole + ("." + part);
    ParsesPlain(false, whole, part);
    assert text[0] == whole[0];
  }

  /** Dollars as people write them: whole, or with digits after a point. */
  lemma PlainReads(whole: string, part: string)
    requires AllDigits(whole) && AllDigits(part) && whole != []
    ensures CentsOf(whole) == Ok(100 * Value(whole))
    ensures CentsOf(whole + ("." + part))
         == if |part| > 2 then Err(NotNonnegativeCents)
            else Ok(100 * Value(whole) + Value(part) * Power(2 - |part|))
  {
    hide Value, CentsOf, Power, InHundredths;
    WholeReads(whole);
    PartReads(whole, part);
    if |part| <= 2 {
      ValueOfConcat(whole, part);
      Scaled(Value(whole), Value(part), |part|);
    }
  }

  /** A sign in front: plus changes nothing, minus leaves only zero. */
  lemma SignedReads(whole: string, part: string)
    requires AllDigits(whole) && AllDigits(part) && whole != []
    ensures CentsOf("+" + (whole + ("." + part))) == CentsOf(whole + ("." + part))
    ensures CentsOf("-" + (whole + ("." + part)))
         == if Value(whole + part) > 0 || |part| > 2 then Err(NotNonnegativeCents) else Ok(0)
  {
    hide Value, PointIn, ParseUnsigned;
    var text := whole + ("." + part);
    ParsesPlain(false, whole, part);
    ParsesPlain(true, whole, part);
    assert text[0] == whole[0];
    assert ("+" + text)[1..] == text && ("-" + text)[1..] == text;
  }

  lemma ParsesWhole(whole: string)
    requires AllDigits(whole) && whole != []
    ensures ParseUnsigned(false, whole) == Some(Decimal(false, Value(whole), 0))
  {
    NoPoint(whole);
    assert whole[..|whole|] == whole && whole + [] == whole;
  }

  lemma Powers()
    ensures Power(0) == 1 && Power(1) == 10 && Power(2) == 100
  {}

  /** Every whole number of dollars reads as its hundredfold, with a digit for tens of cents and two for
      cents; below zero nothing but zero is read. */
  lemma DollarsRead(dollars: nat, cents: nat)
    requires cents <= 99
    ensures CentsOf(Digits(dollars)) == Ok(100 * dollars)
    ensures CentsOf(Digits(dollars) + ("." + Pad2(cents))) == Ok(100 * dollars + cents)
    ensures cents % 10 == 0 ==> CentsOf(Digits(dollars) + ("." + [Digit(cents / 10)])) == Ok(100 * dollars + cents)
  {
    hide CentsOf, Value, Power, Digits;
    DigitsValue(dollars);
    PadIsDigits(cents);
    PlainReads(Digits(dollars), Pad2(cents));
    PlainReads(Digits(dollars), [Digit(cents / 10)]);
    OneDigit(cents / 10);
    TwoDigits(cents);
    Powers();
  }

  lemma OneDigit(n: nat)
    requires n <= 9
    ensures AllDigits([Digit(n)]) && Value([Digit(n)]) == n
  {
    assert [Digit(n)][..0] == [];
  }

  lemma TwoDigits(n: nat)
    requires n <= 99
    ensures AllDigits(Pad2(n)) && Value(Pad2(n)) == n
  {
    assert Pad2(n)[..1] == [Digit(n / 10)];
    OneDigit(n / 10);
  }
}
