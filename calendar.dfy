/**
 * Calendar helpers of the projection engine: calendar dates, the "YYYY-MM"
 * month key, the JavaScript `Date` constructor's normalisation of a
 * (year, month index) pair, parsing a key back to a date, and the horizon of
 * consecutive months that the ledger walks.
 */
module Calendar {
  import opened Wrappers
  import opened Decimal

  type Month = m: int | 1 <= m <= 12 witness 1

  /** A calendar date in local time; `month` counts from 1. */
  datatype Date = Date(year: int, month: Month, day: int)

  /** A calendar month, the meaning of a month key. */
  datatype MonthKey = MonthKey(year: int, month: Month)

  function KeyOf(d: Date): MonthKey {
    MonthKey(d.year, d.month)
  }

  /** Months since January of year 0: the chronological position of a month. */
  function Ordinal(k: MonthKey): int {
    12 * k.year + k.month - 1
  }

  function FromOrdinal(o: int): (k: MonthKey)
    ensures Ordinal(k) == o
  {
    MonthKey(o / 12, o % 12 + 1)
  }

  lemma FromOrdinalOfOrdinal(k: MonthKey)
    ensures FromOrdinal(Ordinal(k)) == k
  {
  }

  /** `String(year)`: a minus sign for negative years, no padding. */
  function YearText(y: int): string {
    if y < 0 then "-" + NatText(-y) else NatText(y)
  }

  /** `String(m).padStart(2, '0')`. */
  function Pad2(m: nat): string {
    var s := NatText(m);
    if |s| < 2 then "0" + s else s
  }

  /** The text of a month key, `${year}-${month padded to two digits}`. */
  function KeyText(k: MonthKey): string {
    YearText(k.year) + "-" + Pad2(k.month)
  }

  /** `getMonthKey(date)`: the day is dropped. */
  function GetMonthKey(d: Date): string {
    KeyText(KeyOf(d))
  }

  /** A key is the year's text, a dash, and the month as exactly two digits. */
  lemma GetMonthKeyFormat(d: Date)
    ensures var r := GetMonthKey(d);
      |r| >= 4 && r[|r| - 3] == '-' && r[|r| - 2..] == Digits(d.month, 2) && r[..|r| - 3] == YearText(d.year)
  {
    Pad2Digits(d.month);
  }

  /** Two dates share a key exactly when they fall in the same month of the same year; the day never matters. */
  lemma SameMonthKey(a: Date, b: Date)
    ensures GetMonthKey(a) == GetMonthKey(b) <==> a.year == b.year && a.month == b.month
    ensures GetMonthKey(a) != InvalidKeyText
  {
    KeyTextInjective(KeyOf(a), KeyOf(b));
    KeyBeforeInvalid(KeyOf(a));
  }

  /** What `getMonthKey` yields for an Invalid Date (`new Date(undefined)`). */
  const InvalidKeyText: string := "NaN-NaN"

  /** The key text of a date that may be missing, which JavaScript turns into an Invalid Date. */
  function DateKeyText(d: Option<Date>): string {
    if d.Some? then GetMonthKey(d.value) else InvalidKeyText
  }

  /** The year the `Date` constructor uses: it reads 0..99 as 1900..1999. */
  function FullYear(y: int): (r: int)
    ensures !(0 <= r <= 99)
    ensures !(0 <= y <= 99) ==> r == y
  {
    if 0 <= y <= 99 then 1900 + y else y
  }

  /**
   * `new Date(year, monthIndex, 1)`: month indexes outside 0..11 carry into
   * the year, in either direction.
   */
  function MonthStart(year: int, monthIndex: int): (d: Date)
    ensures d.day == 1
    ensures Ordinal(KeyOf(d)) == 12 * FullYear(year) + monthIndex
  {
    var k := FromOrdinal(12 * FullYear(year) + monthIndex);
    Date(k.year, k.month, 1)
  }

  /** Position of the first '-' in `s`, or `|s|` when there is none. */
  function DashIndex(s: string): (i: nat)
    ensures i <= |s|
    ensures forall j :: 0 <= j < i ==> s[j] != '-'
    ensures i < |s| ==> s[i] == '-'
  {
    if s == "" then 0
    else if s[0] == '-' then 0
    else 1 + DashIndex(s[1..])
  }

  /**
   * `parseMonthKey(key)`: split at '-', read the first two pieces as
   * integers and build the first day of that month. A piece that is missing
   * or not made of digits gives an Invalid Date, here `None`.
   */
  function ParseMonthKey(s: string): (r: Option<Date>)
    ensures r.Some? ==> r.value.day == 1
  {
    var i := DashIndex(s);
    if i == |s| then None
    else
      var yearText := s[..i];
      var rest := s[i + 1..];
      var monthText := rest[..DashIndex(rest)];
      if yearText == "" || monthText == "" || !AllDigits(yearText) || !AllDigits(monthText) then None
      else Some(MonthStart(ParseDigits(yearText), ParseDigits(monthText) - 1))
  }

  lemma Pad2Digits(m: Month)
    ensures Pad2(m) == Digits(m, 2)
  {
    if m < 10 {
      assert Width(m) == 1;
      assert NatText(m) == [DigitChar(m)];
    } else {
      assert Width(m) == 2;
    }
  }

  lemma YearDigits(y: int)
    requires 1000 <= y <= 9999
    ensures YearText(y) == Digits(y, 4)
  {
    var a := y / 10;
    var b := a / 10;
    var c := b / 10;
    assert 1 <= c <= 9 && 10 <= b <= 99 && 100 <= a <= 999;
    assert Width(c) == 1;
    assert Width(b) == 2;
    assert Width(a) == 3;
  }

  lemma Pad2RoundTrip(m: Month)
    ensures |Pad2(m)| == 2 && AllDigits(Pad2(m)) && ParseDigits(Pad2(m)) == m
  {
    Pad2Digits(m);
    DigitsAreDigits(m, 2);
    ParseDigitsOfDigits(m, 2);
  }

  /**
   * Parsing the text of a key with a non-negative year gives the first day
   * of that month, in the year the `Date` constructor reads; for years from
   * 100 on that is the key's own year, and the key helpers round-trip.
   */
  lemma KeyRoundTrip(k: MonthKey)
    requires k.year >= 0
    ensures ParseMonthKey(KeyText(k)) == Some(Date(FullYear(k.year), k.month, 1))
    ensures k.year >= 100 ==> GetMonthKey(ParseMonthKey(KeyText(k)).value) == KeyText(k)
  {
    ParseKeyText(k);
    MonthStartOfKey(k);
  }

  /** The text of a key splits at its dash into the year digits and the two month digits. */
  lemma ParseKeyText(k: MonthKey)
    requires k.year >= 0
    ensures ParseMonthKey(KeyText(k)) == Some(MonthStart(k.year, k.month - 1))
  {
    var yt, mt := NatText(k.year), Pad2(k.month);
    Pad2RoundTrip(k.month);
    NatTextRoundTrip(k.year);
    NatTextDigits(k.year);
    var s := KeyText(k);
    assert s == yt + "-" + mt;
    DashAt(yt, mt);
    var i := DashIndex(s);
    assert i == |yt|;
    assert s[..i] == yt;
    var rest := s[i + 1..];
    assert rest == mt;
    DashFree(mt);
    assert rest[..DashIndex(rest)] == mt;
  }

  /** A month index within the year does not carry: the first day of the key's month, in the year the constructor reads. */
  lemma MonthStartOfKey(k: MonthKey)
    ensures MonthStart(k.year, k.month - 1) == Date(FullYear(k.year), k.month, 1)
  {
    var d := MonthStart(k.year, k.month - 1);
    var full := MonthKey(FullYear(k.year), k.month);
    assert Ordinal(KeyOf(d)) == Ordinal(full);
    FromOrdinalOfOrdinal(full);
    FromOrdinalOfOrdinal(KeyOf(d));
  }

  lemma DashAt(digits: string, tail: string)
    requires AllDigits(digits)
    ensures DashIndex(digits + "-" + tail) == |digits|
  {
    var s := digits + "-" + tail;
    assert s[|digits|] == '-';
    assert forall j :: 0 <= j < |digits| ==> s[j] == digits[j];
  }

  lemma DashFree(digits: string)
    requires AllDigits(digits)
    ensures DashIndex(digits) == |digits|
  {
  }

  /**
   * The year quirk of `parseMonthKey`: a key whose year has at most two
   * digits parses to a date in the twentieth century, whose key is a
   * different text.
   */
  lemma TwoDigitYearKey(k: MonthKey)
    requires 0 <= k.year <= 99
    ensures ParseMonthKey(KeyText(k)) == Some(Date(1900 + k.year, k.month, 1))
    ensures GetMonthKey(ParseMonthKey(KeyText(k)).value) != KeyText(k)
  {
    KeyRoundTrip(k);
    KeyTextInjective(MonthKey(1900 + k.year, k.month), k);
  }

  lemma YearTextInjective(a: int, b: int)
    ensures YearText(a) == YearText(b) <==> a == b
  {
    if a >= 0 { NatTextDigits(a); }
    if b >= 0 { NatTextDigits(b); }
    assert a < 0 ==> YearText(a)[0] == '-';
    assert a >= 0 ==> IsDigit(YearText(a)[0]);
    assert b < 0 ==> YearText(b)[0] == '-';
    assert b >= 0 ==> IsDigit(YearText(b)[0]);
    if YearText(a) == YearText(b) {
      if a < 0 && b < 0 {
        assert NatText(-a) == YearText(a)[1..] == YearText(b)[1..] == NatText(-b);
        NatTextInjective(-a, -b);
      } else if a >= 0 && b >= 0 {
        NatTextInjective(a, b);
      }
    }
  }

  /** Two keys have the same text exactly when they name the same month, for every year. */
  lemma KeyTextInjective(a: MonthKey, b: MonthKey)
    ensures KeyText(a) == KeyText(b) <==> a == b
  {
    if KeyText(a) == KeyText(b) {
      Pad2RoundTrip(a.month);
      Pad2RoundTrip(b.month);
      var ta, tb := KeyText(a), KeyText(b);
      var n := |ta| - 2;
      assert ta[n..] == Pad2(a.month) && tb[n..] == Pad2(b.month);
      assert ta[..n - 1] == YearText(a.year) && tb[..n - 1] == YearText(b.year);
      YearTextInjective(a.year, b.year);
    }
  }

  /**
   * For four-digit years, comparing key texts as strings (what the engine
   * does) is chronological order of the months.
   */
  lemma KeyOrder(a: MonthKey, b: MonthKey)
    requires 1000 <= a.year <= 9999 && 1000 <= b.year <= 9999
    ensures LexLess(KeyText(a), KeyText(b)) <==> Ordinal(a) < Ordinal(b)
  {
    YearDigits(a.year);
    YearDigits(b.year);
    Pad2Digits(a.month);
    Pad2Digits(b.month);
    var ya, yb := Digits(a.year, 4), Digits(b.year, 4);
    var ma, mb := Digits(a.month, 2), Digits(b.month, 2);
    assert KeyText(a) == ya + ("-" + ma);
    assert KeyText(b) == yb + ("-" + mb);
    LexAppend(ya, yb, "-" + ma, "-" + mb);
    LexAppend("-", "-", ma, mb);
    LexIrreflexive("-");
    LexDigits(a.year, b.year, 4);
    DigitsInjective(a.year, b.year, 4);
    LexDigits(a.month, b.month, 2);
  }

  /** Every real key sorts before the text of an Invalid Date, and differs from it. */
  lemma KeyBeforeInvalid(k: MonthKey)
    ensures LexLess(KeyText(k), InvalidKeyText) && KeyText(k) != InvalidKeyText
  {
    var t := KeyText(k);
    if k.year >= 0 { NatTextDigits(k.year); }
    assert t[0] == YearText(k.year)[0];
    assert t[0] == '-' || IsDigit(t[0]);
    assert InvalidKeyText[0] == 'N';
  }

  /** The anchor of the horizon: `new Date(now.getFullYear(), now.getMonth(), 1)`. */
  function Anchor(now: Date): MonthKey {
    KeyOf(MonthStart(now.year, now.month - 1))
  }

  /** The month `i` steps after the anchor month. */
  function HorizonKey(now: Date, i: int): MonthKey {
    FromOrdinal(Ordinal(Anchor(now)) + i)
  }

  /** The key text of the month `i` steps after the anchor. */
  function MonthKeyAt(now: Date, i: int): string {
    KeyText(HorizonKey(now, i))
  }

  /** One month of the horizon: its key text, its first day and whether it is the current month. */
  datatype MonthInfo = MonthInfo(key: string, date: Date, isCurrentMonth: bool)

  /** Month `i` of the horizon: the first day of the month `i` steps after the anchor, current only at index 0. */
  function HorizonMonth(now: Date, i: int): MonthInfo {
    var k := HorizonKey(now, i);
    MonthInfo(KeyText(k), Date(k.year, k.month, 1), i == 0)
  }

  /**
   * `getNextMonths(count)` with the clock reading passed in as `now`:
   * `count` consecutive months starting at the month of `now`, only the
   * first flagged as current. (The locale-dependent label is not modelled.)
   */
  method NextMonths(count: nat, now: Date) returns (months: seq<MonthInfo>)
    ensures |months| == count
    ensures forall i :: 0 <= i < count ==>
      && KeyOf(months[i].date) == HorizonKey(now, i)
      && months[i].date.day == 1
      && months[i].key == GetMonthKey(months[i].date)
      && (months[i].isCurrentMonth <==> i == 0)
    ensures forall i :: 0 <= i < count && !(0 <= now.year <= 99) ==>
      Ordinal(KeyOf(months[i].date)) == Ordinal(KeyOf(now)) + i
    ensures forall i :: 0 <= i < count ==> months[i] == HorizonMonth(now, i)
  {
    var current := MonthStart(now.year, now.month - 1);
    months := [];
    var i := 0;
    while i < count
      invariant 0 <= i <= count && |months| == i
      invariant forall j :: 0 <= j < i ==>
        && KeyOf(months[j].date) == HorizonKey(now, j)
        && months[j].date.day == 1
        && months[j].key == GetMonthKey(months[j].date)
        && (months[j].isCurrentMonth <==> j == 0)
      invariant forall j :: 0 <= j < i ==> months[j] == HorizonMonth(now, j)
    {
      var month := MonthStart(current.year, current.month - 1 + i);
      assert KeyOf(month) == HorizonKey(now, i) by {
        FromOrdinalOfOrdinal(KeyOf(month));
      }
      months := months + [MonthInfo(GetMonthKey(month), month, i == 0)];
      i := i + 1;
    }
  }
}
