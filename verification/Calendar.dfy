/** Months as the databases see them: ISO text compared character by character. */
module Calendar {
  import opened TextOrder

  datatype Month = Month(year: int, number: int)

  predicate ValidMonth(m: Month) { 0 <= m.year <= 9999 && 1 <= m.number <= 12 }

  const LAST_MONTH := Month(9999, 12)

  function Index(m: Month): int { 12 * m.year + m.number - 1 }

  function MonthAt(index: int): (m: Month)
    requires 0 <= index < 120000
    ensures ValidMonth(m) && Index(m) == index
  {
    Month(index / 12, index % 12 + 1)
  }

  /** How many months of a range are `first` or later. */
  function MonthsFrom(first: int, start: int, end: int): nat
    requires start <= end
  {
    if end <= first then 0 else if start <= first then end - first else end - start
  }

  lemma MonthsNext(first: int, start: int, end: int)
    requires start <= end
    ensures MonthsFrom(first, start, start) == 0
    ensures start < end ==>
              MonthsFrom(first, start, end) == MonthsFrom(first, start, end - 1) + if first <= end - 1 then 1 else 0
  {}

  function Digit(n: int): char
    requires 0 <= n <= 9
  {
    ('0' as int + n) as char
  }

  function Pad2(n: int): (t: string)
    requires 0 <= n <= 99
    ensures |t| == 2
  {
    [Digit(n / 10), Digit(n % 10)]
  }

  function Pad4(n: int): (t: string)
    requires 0 <= n <= 9999
    ensures |t| == 4
  {
    Pad2(n / 100) + Pad2(n % 100)
  }

  /** `YYYY-MM`. */
  function MonthText(m: Month): (t: string)
    requires ValidMonth(m)
    ensures |t| == 7
  {
    Pad4(m.year) + ("-" + Pad2(m.number))
  }

  /** The first day of the following month; a year past 9999 takes five digits. */
  function NextMonth(m: Month): string
    requires ValidMonth(m)
  {
    var year, number := m.year + (if m.number == 12 then 1 else 0), m.number % 12 + 1;
    (if year <= 9999 then Pad4(year) else "1" + Pad4(year - 10000)) + ("-" + Pad2(number)) + "-01"
  }

  /** A UTC timestamp: its month, its day and the text from the "T" on. */
  datatype Stamp = Stamp(month: Month, day: int, rest: string)

  predicate ValidStamp(s: Stamp) { ValidMonth(s.month) && 1 <= s.day <= 31 }

  function StampText(s: Stamp): string
    requires ValidStamp(s)
  {
    MonthText(s.month) + ("-" + (Pad2(s.day) + ("T" + s.rest)))
  }

  /** `stamp >= month-01 AND stamp < next month`, on text. */
  predicate InWindow(m: Month, stamp: string)
    requires ValidMonth(m)
  {
    TextLe(MonthText(m) + "-01", stamp) && TextLe(stamp, NextMonth(m)) && stamp != NextMonth(m)
  }

  // ---------------------------------------------------------------- text order is time order

  lemma TextLeHeads(x: char, s: string, y: char, t: string)
    ensures TextLe([x] + s, [y] + t) <==> x < y || (x == y && TextLe(s, t))
  {
    assert ([x] + s)[1..] == s && ([y] + t)[1..] == t;
  }

  lemma {:induction false} AfterEqualLengths(a: string, b: string, c: string, d: string)
    requires |a| == |b|
    ensures TextLe(a + c, b + d) <==> if a == b then TextLe(c, d) else TextLe(a, b)
  {
    hide TextLe;
    if a == [] {
      assert a + c == c && b + d == d;
    } else {
      AfterEqualLengths(a[1..], b[1..], c, d);
      TextLeHeads(a[0], a[1..], b[0], b[1..]);
      TextLeHeads(a[0], a[1..] + c, b[0], b[1..] + d);
      assert a == [a[0]] + a[1..] && b == [b[0]] + b[1..];
      assert a + c == [a[0]] + (a[1..] + c) && b + d == [b[0]] + (b[1..] + d);
    }
  }

  lemma Pad2Order(a: int, b: int)
    requires 0 <= a <= 99 && 0 <= b <= 99
    ensures TextLe(Pad2(a), Pad2(b)) <==> a <= b
    ensures Pad2(a) == Pad2(b) <==> a == b
  {
    assert Pad2(a)[1..] == [Digit(a % 10)] && Pad2(b)[1..] == [Digit(b % 10)];
    assert Pad2(a) == Pad2(b) ==> Pad2(a)[0] == Pad2(b)[0] && Pad2(a)[1] == Pad2(b)[1];
  }

  lemma Pad4Order(a: int, b: int)
    requires 0 <= a <= 9999 && 0 <= b <= 9999
    ensures TextLe(Pad4(a), Pad4(b)) <==> a <= b
    ensures Pad4(a) == Pad4(b) <==> a == b
  {
    hide Pad2, TextLe;
    Pad2Order(a / 100, b / 100);
    Pad2Order(a % 100, b % 100);
    AfterEqualLengths(Pad2(a / 100), Pad2(b / 100), Pad2(a % 100), Pad2(b % 100));
    assert Pad4(a) == Pad4(b) ==> Pad4(a)[..2] == Pad4(b)[..2] && Pad4(a)[2..] == Pad4(b)[2..];
  }

  lemma DashFirst(a: string, b: string)
    ensures TextLe("-" + a, "-" + b) <==> TextLe(a, b)
  {
    assert ("-" + a)[1..] == a && ("-" + b)[1..] == b;
  }

  /** Months compare as their texts do. */
  lemma MonthOrder(m: Month, n: Month)
    requires ValidMonth(m) && ValidMonth(n)
    ensures TextLe(MonthText(m), MonthText(n)) <==> Index(m) <= Index(n)
    ensures MonthText(m) == MonthText(n) <==> m == n
  {
    hide Pad2, Pad4, TextLe;
    Pad4Order(m.year, n.year);
    Pad2Order(m.number, n.number);
    AfterEqualLengths(Pad4(m.year), Pad4(n.year), "-" + Pad2(m.number), "-" + Pad2(n.number));
    DashFirst(Pad2(m.number), Pad2(n.number));
    assert MonthText(m)[..4] == Pad4(m.year) && MonthText(n)[..4] == Pad4(n.year);
    assert MonthText(m)[5..] == Pad2(m.number) && MonthText(n)[5..] == Pad2(n.number);
  }

  /** The first day of a month is at or before a timestamp exactly when the month is. */
  lemma FirstDayOrder(m: Month, s: Stamp)
    requires ValidMonth(m) && ValidStamp(s)
    ensures TextLe(MonthText(m) + "-01", StampText(s)) <==> Index(m) <= Index(s.month)
    ensures MonthText(m) + "-01" != StampText(s)
  {
    hide MonthText, TextLe, Pad2;
    MonthOrder(m, s.month);
    AfterEqualLengths(MonthText(m), MonthText(s.month), "-01", "-" + (Pad2(s.day) + ("T" + s.rest)));
    assert "-01" == "-" + "01";
    DashFirst("01", Pad2(s.day) + ("T" + s.rest));
    FirstDay(s);
    assert |StampText(s)| > 10 == |MonthText(m) + "-01"|;
  }

  /** One timestamp is at or before another, as text. */
  predicate NotAfter(a: Stamp, b: Stamp)
    requires ValidStamp(a) && ValidStamp(b)
  {
    TextLe(StampText(a), StampText(b))
  }

  lemma NotAfterMonths(a: Stamp, b: Stamp)
    requires ValidStamp(a) && ValidStamp(b) && NotAfter(a, b)
    ensures Index(a.month) <= Index(b.month)
  {
    hide MonthText, TextLe, Pad2;
    MonthOrder(a.month, b.month);
    AfterEqualLengths(MonthText(a.month), MonthText(b.month),
                      "-" + (Pad2(a.day) + ("T" + a.rest)), "-" + (Pad2(b.day) + ("T" + b.rest)));
  }

  lemma FirstDay(s: Stamp)
    requires ValidStamp(s)
    ensures TextLe("01", Pad2(s.day) + ("T" + s.rest))
  {
    assert "01" == Pad2(1) + "";
    Pad2Order(1, s.day);
    AfterEqualLengths(Pad2(1), Pad2(s.day), "", "T" + s.rest);
  }

  /** The text window of a month holds exactly the timestamps of that month, except that December 9999
      has an empty window: the text of year 10000 sorts before it. */
  lemma WindowExactly(m: Month, s: Stamp)
    requires ValidMonth(m) && ValidStamp(s)
    ensures InWindow(m, StampText(s)) <==> s.month == m && m != LAST_MONTH
  {
    hide TextLe, StampText, MonthText, NextMonth;
    FirstDayOrder(m, s);
    if m == LAST_MONTH {
      if Index(m) <= Index(s.month) { AfterYear9999(s); }
    } else {
      var next := MonthAt(Index(m) + 1);
      NextMonthIs(m);
      FirstDayOrder(next, s);
      TextLeTotal(StampText(s), NextMonth(m));
    }
  }

  lemma NextMonthIs(m: Month)
    requires ValidMonth(m) && m != LAST_MONTH
    ensures Index(m) + 1 < 120000 && NextMonth(m) == MonthText(MonthAt(Index(m) + 1)) + "-01"
  {
    hide Pad2, Pad4;
    assert m.year == 9999 ==> m.number < 12;
    assert MonthAt(Index(m) + 1) == Month(m.year + (if m.number == 12 then 1 else 0), m.number % 12 + 1);
  }

  lemma AfterYear9999(s: Stamp)
    requires ValidStamp(s) && Index(LAST_MONTH) <= Index(s.month)
    ensures !TextLe(StampText(s), NextMonth(LAST_MONTH))
  {
    assert s.month.year == 9999;
    assert Pad4(9999) == "9999";
    assert StampText(s)[0] == '9' && NextMonth(LAST_MONTH)[0] == '1';
  }
}
