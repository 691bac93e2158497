// UTC RFC 3339 timestamps to nanoseconds since the Unix epoch.
module Timestamp {
  import opened Bits

  const Max64: nat := 0xFFFF_FFFF_FFFF_FFFF

  /** A wrong form or component throws one exception, a value past 64 bits another. */
  datatype Parsed = Nanoseconds(value: nat) | InvalidArgument | OutOfRange

  datatype Date = Date(year: nat, month: nat, day: nat)
  {
    predicate Valid() {
      1 <= month <= 12 && 1 <= day <= MonthDays(year, month)
    }

    predicate Before(o: Date) {
      year < o.year || (year == o.year && (month < o.month || (month == o.month && day < o.day)))
    }
  }

  datatype Civil = Civil(date: Date, hour: nat, minute: nat, second: nat, fraction: nat)
  {
    /** Components in range; second 60 is a leap second. */
    predicate Valid() {
      date.Valid() && hour <= 23 && minute <= 59 && second <= 60 && fraction < 1_000_000_000
    }

    predicate Before(o: Civil) {
      date.Before(o.date) || (date == o.date &&
        (hour < o.hour || (hour == o.hour &&
          (minute < o.minute || (minute == o.minute &&
            (second < o.second || (second == o.second && fraction < o.fraction)))))))
    }
  }

  predicate Leap(year: nat) {
    (year % 4 == 0 && year % 100 != 0) || year % 400 == 0
  }

  function MonthDays(year: nat, month: nat): nat {
    if month == 2 then (if Leap(year) then 29 else 28)
    else if month == 4 || month == 6 || month == 9 || month == 11 then 30
    else 31
  }

  // ---- Reading the text ----

  predicate IsDigit(c: char) {
    '0' <= c <= '9'
  }

  function DigitValue(c: char): nat
    requires IsDigit(c)
  {
    c as int - '0' as int
  }

  predicate DigitsAt(s: string, from: nat, n: nat) {
    from + n <= |s| && forall k :: from <= k < from + n ==> IsDigit(s[k])
  }

  /** The decimal number written in `n` characters. */
  function Number(s: string, from: nat, n: nat): nat
    requires DigitsAt(s, from, n)
    decreases n
  {
    if n == 0 then 0 else Number(s, from, n - 1) * 10 + DigitValue(s[from + n - 1])
  }

  function Pow10(n: nat): nat {
    if n == 0 then 1 else 10 * Pow10(n - 1)
  }

  /** How many digits follow position `from`. */
  function DigitRun(s: string, from: nat): (n: nat)
    ensures DigitsAt(s, from, n) || (n == 0 && from > |s|)
    ensures from + n < |s| ==> !IsDigit(s[from + n])
    decreases |s| - from
  {
    if from < |s| && IsDigit(s[from]) then DigitRun(s, from + 1) + 1 else 0
  }

  /** The fixed part: YYYY-MM-DDTHH:MM:SS and at least one more character. */
  predicate Framed(s: string) {
    && |s| >= 20 && s[4] == '-' && s[7] == '-' && s[10] == 'T' && s[13] == ':' && s[16] == ':'
    && DigitsAt(s, 0, 4) && DigitsAt(s, 5, 2) && DigitsAt(s, 8, 2) && DigitsAt(s, 11, 2) && DigitsAt(s, 14, 2)
    && DigitsAt(s, 17, 2)
  }

  /** The tail: an optional fraction of one to nine digits, then exactly `Z`. */
  predicate Tailed(s: string)
    requires |s| >= 20
  {
    if s[19] == '.' then
      var n := DigitRun(s, 20);
      1 <= n <= 9 && 20 + n + 1 == |s| && s[20 + n] == 'Z'
    else |s| == 20 && s[19] == 'Z'
  }

  function Fraction(s: string): nat
    requires |s| >= 20 && Tailed(s)
  {
    if s[19] == '.' then
      var n := DigitRun(s, 20);
      Number(s, 20, n) * Pow10(9 - n)
    else 0
  }

  function CivilOf(s: string): Civil
    requires Framed(s) && Tailed(s)
  {
    Civil(Date(Number(s, 0, 4), Number(s, 5, 2), Number(s, 8, 2)), Number(s, 11, 2), Number(s, 14, 2),
      Number(s, 17, 2), Fraction(s))
  }

  // ---- Days ----

  /** The day number of a date, in closed form. */
  function DaysFromCivil(d: Date): int {
    var y := if d.month <= 2 then d.year as int - 1 else d.year;
    var era := (if y >= 0 then y else y - 399) / 400;
    var yearOfEra := y - era * 400;
    var shifted := if d.month > 2 then d.month as int - 3 else d.month as int + 9;
    var dayOfYear := (153 * shifted + 2) / 5 + d.day - 1;
    var dayOfEra := yearOfEra * 365 + yearOfEra / 4 - yearOfEra / 100 + dayOfYear;
    era * 146097 + dayOfEra - 719468
  }

  const Epoch := Date(1970, 1, 1)

  /** The calendar day before. */
  function Yesterday(d: Date): Date
    requires d.Valid() && Epoch.Before(d)
  {
    if d.day > 1 then d.(day := d.day - 1)
    else if d.month > 1 then Date(d.year, d.month - 1, MonthDays(d.year, d.month - 1))
    else Date(d.year - 1, 12, 31)
  }

  lemma {:induction false} YesterdayIsValid(d: Date)
    requires d.Valid() && Epoch.Before(d)
    ensures Yesterday(d).Valid() && !Yesterday(d).Before(Epoch) && Yesterday(d).Before(d)
  {
  }

  /** The days since the epoch, counted one calendar day at a time. */
  ghost function DayCount(d: Date): nat
    requires d.Valid() && !d.Before(Epoch)
    decreases d.year, d.month, d.day
  {
    if d == Epoch then 0
    else
      YesterdayIsValid(d);
      DayCount(Yesterday(d)) + 1
  }

  // The years before `y` March-based years, in days.
  function YearDays(y: int): int {
    var era := (if y >= 0 then y else y - 399) / 400;
    var yearOfEra := y - era * 400;
    era * 146097 + yearOfEra * 365 + yearOfEra / 4 - yearOfEra / 100
  }

  lemma {:induction false} YearDaysLinear(y: nat)
    ensures YearDays(y) == 365 * y + y / 4 - y / 100 + y / 400
  {
    var e, r := y / 400, y % 400;
    assert y == 400 * e + r;
    assert y / 4 == 100 * e + r / 4;
    assert y / 100 == 4 * e + r / 100;
  }

  lemma {:induction false} NextYear(y: nat)
    requires y >= 1
    ensures YearDays(y) == YearDays(y - 1) + 365 + if Leap(y) then 1 else 0
  {
    YearDaysLinear(y);
    YearDaysLinear(y - 1);
    QuotientSteps(y, 4);
    QuotientSteps(y, 100);
    QuotientSteps(y, 400);
    FourDivides(y);
  }

  lemma {:induction false} QuotientSteps(y: nat, m: nat)
    requires y >= 1 && (m == 4 || m == 100 || m == 400)
    ensures y / m == (y - 1) / m + if y % m == 0 then 1 else 0
  {
  }

  lemma {:induction false} FourDivides(y: nat)
    ensures y % 100 == 0 ==> y % 4 == 0
    ensures y % 400 == 0 ==> y % 100 == 0
  {
    if y % 100 == 0 { ModUnique(y, 25 * (y / 100), 0, 4); }
    if y % 400 == 0 { ModUnique(y, 4 * (y / 400), 0, 100); }
  }

  // The days of a March-based year before a month.
  function MonthStart(month: nat): int {
    (153 * (if month > 2 then month as int - 3 else month as int + 9) + 2) / 5
  }

  lemma {:induction false} MonthLengths(year: nat, month: nat)
    requires 1 <= month <= 12
    ensures month != 1 && month != 3 ==> MonthStart(month) == MonthStart(month - 1) + MonthDays(year, month - 1)
    ensures MonthStart(1) == MonthStart(12) + 31
    ensures MonthStart(2) + MonthDays(year, 2) == 365 + (if Leap(year) then 1 else 0) && MonthStart(3) == 0
  {
    hide Leap;
  }

  lemma {:induction false} YesterdayIsOneLess(d: Date)
    requires d.Valid() && Epoch.Before(d)
    ensures DaysFromCivil(Yesterday(d)) == DaysFromCivil(d) - 1
  {
    hide YearDays, Leap, DaysFromCivil, MonthStart, MonthDays;
    ClosedForm(d);
    ClosedForm(Yesterday(d));
    MonthLengths(d.year, d.month);
    if d.day == 1 && d.month == 3 { NextYear(d.year); }
  }

  lemma {:induction false} ClosedForm(d: Date)
    ensures
      var y := if d.month <= 2 then d.year as int - 1 else d.year;
      DaysFromCivil(d) == YearDays(y) + MonthStart(d.month) + d.day - 1 - 719468
  {
  }

  /** The closed form is the day-by-day Gregorian count from 1970-01-01, leap rule included. */
  lemma {:induction false} DaysAreCounted(d: Date)
    requires d.Valid() && !d.Before(Epoch)
    ensures DaysFromCivil(d) == DayCount(d)
    decreases d.year, d.month, d.day
  {
    hide DaysFromCivil;
    if d == Epoch {
      EpochIsZero();
    } else {
      YesterdayIsValid(d);
      YesterdayIsOneLess(d);
      DaysAreCounted(Yesterday(d));
    }
  }

  lemma {:induction false} EpochIsZero()
    ensures DaysFromCivil(Epoch) == 0
  {
  }

  lemma {:induction false} LaterDateCountsMore(a: Date, b: Date)
    requires a.Valid() && b.Valid() && !a.Before(Epoch) && a.Before(b)
    ensures DayCount(a) < DayCount(b)
    decreases b.year, b.month, b.day
  {
    YesterdayIsValid(b);
    var y := Yesterday(b);
    assert a == y || a.Before(y);
    if a != y { LaterDateCountsMore(a, y); }
  }

  /** Exactly the dates before the epoch have negative day numbers. */
  lemma {:induction false} NegativeBeforeEpoch(d: Date)
    requires d.Valid()
    ensures DaysFromCivil(d) < 0 <==> d.Before(Epoch)
  {
    if d.Before(Epoch) {
      hide YearDays;
      ClosedForm(d);
      EarlierYears(if d.month <= 2 then d.year as int - 1 else d.year);
    } else {
      hide DaysFromCivil;
      DaysAreCounted(d);
    }
  }

  lemma {:induction false} EarlierYears(y: int)
    requires -1 <= y <= 1969
    ensures YearDays(y) <= 719468 - 365 + if y == 1969 then 59 else -306
  {
    if y >= 0 { YearDaysLinear(y); }
  }

  // ---- The value ----

  function Seconds(c: Civil): int {
    DaysFromCivil(c.date) * 86400 + c.hour * 3600 + c.minute * 60 + c.second
  }

  function ParseTimestamp(s: string): Parsed {
    if !Framed(s) || !Tailed(s) then InvalidArgument
    else
      var c := CivilOf(s);
      if !c.Valid() || DaysFromCivil(c.date) < 0 then InvalidArgument
      else if Seconds(c) > (Max64 - c.fraction) / 1_000_000_000 then OutOfRange
      else
        assert Seconds(c) >= 0;
        Nanoseconds(Seconds(c) * 1_000_000_000 + c.fraction)
  }

  /** The instant in nanoseconds, with the days counted one at a time. */
  ghost function Instant(c: Civil): nat
    requires c.Valid() && !c.date.Before(Epoch)
  {
    (DayCount(c.date) * 86400 + c.hour * 3600 + c.minute * 60 + c.second) * 1_000_000_000 + c.fraction
  }

  lemma {:induction false} OverflowGuard(seconds: nat, fraction: nat)
    requires fraction < 1_000_000_000
    ensures seconds > (Max64 - fraction) / 1_000_000_000 <==> seconds * 1_000_000_000 + fraction > Max64
  {
  }

  /**
    A well-formed timestamp on or after the epoch gives its instant, unless that exceeds 64 bits, and then exactly
    the overflow exception; every other text, and every earlier date, is an invalid argument.
   */
  lemma {:induction false} ParseIsInstant(s: string)
    ensures
      match ParseTimestamp(s)
      case Nanoseconds(v) =>
        Framed(s) && Tailed(s) && CivilOf(s).Valid() && !CivilOf(s).date.Before(Epoch)
          && v == Instant(CivilOf(s)) < 0x1_0000_0000_0000_0000
      case OutOfRange =>
        Framed(s) && Tailed(s) && CivilOf(s).Valid() && !CivilOf(s).date.Before(Epoch)
          && Instant(CivilOf(s)) >= 0x1_0000_0000_0000_0000
      case InvalidArgument =>
        !Framed(s) || !Tailed(s) || !CivilOf(s).Valid() || CivilOf(s).date.Before(Epoch)
  {
    hide DigitsAt, Tailed, CivilOf, DaysFromCivil, Leap, MonthDays;
    if Framed(s) && Tailed(s) {
      var c := CivilOf(s);
      if c.Valid() {
        NegativeBeforeEpoch(c.date);
        if !c.date.Before(Epoch) {
          DaysAreCounted(c.date);
          OverflowGuard(Seconds(c), c.fraction);
        }
      }
    }
  }

  /** Without leap seconds, earlier times give strictly smaller instants. */
  lemma {:induction false} InstantKeepsOrder(a: Civil, b: Civil)
    requires a.Valid() && b.Valid() && !a.date.Before(Epoch) && !b.date.Before(Epoch)
    requires a.second <= 59 && b.second <= 59 && a.Before(b)
    ensures Instant(a) < Instant(b)
  {
    hide Leap, MonthDays, DayCount;
    if a.date.Before(b.date) { LaterDateCountsMore(a.date, b.date); }
  }

  /** The minutes since the epoch. */
  ghost function Minute(c: Civil): nat
    requires c.Valid() && !c.date.Before(Epoch)
  {
    DayCount(c.date) * 1440 + c.hour * 60 + c.minute
  }

  lemma {:induction false} MinuteOrder(a: Civil, b: Civil)
    requires a.Valid() && b.Valid() && !a.date.Before(Epoch) && !b.date.Before(Epoch) && a.Before(b)
    ensures Minute(a) <= Minute(b)
    ensures Minute(a) == Minute(b) ==> a.second < b.second || (a.second == b.second && a.fraction < b.fraction)
  {
    hide Leap, MonthDays, DayCount;
    if a.date.Before(b.date) { LaterDateCountsMore(a.date, b.date); }
  }

  /** A leap second and the start of the minute after it, with no more of the second gone. */
  ghost predicate LeapOverlap(a: Civil, b: Civil)
    requires a.Valid() && b.Valid() && !a.date.Before(Epoch) && !b.date.Before(Epoch)
  {
    a.second == 60 && b.second == 0 && Minute(b) == Minute(a) + 1 && b.fraction <= a.fraction
  }

  /**
    Of an earlier and a later time the earlier has the smaller instant, except exactly when it is in a leap second,
    the later is in the first second of the next minute, and no further into it.
   */
  lemma {:induction false} OrderLostIff(a: Civil, b: Civil)
    requires a.Valid() && b.Valid() && !a.date.Before(Epoch) && !b.date.Before(Epoch) && a.Before(b)
    ensures Instant(a) >= Instant(b) <==> LeapOverlap(a, b)
    ensures Instant(a) == Instant(b) <==> LeapOverlap(a, b) && a.fraction == b.fraction
  {
    MinuteOrder(a, b);
    hide Leap, MonthDays, DayCount, Civil.Before;
    assert Instant(a) == (Minute(a) * 60 + a.second) * 1_000_000_000 + a.fraction;
    assert Instant(b) == (Minute(b) * 60 + b.second) * 1_000_000_000 + b.fraction;
  }

  lemma {:induction false} NumberBound(s: string, from: nat, n: nat)
    requires DigitsAt(s, from, n)
    ensures Number(s, from, n) < Pow10(n)
    decreases n
  {
    if n > 0 { NumberBound(s, from, n - 1); }
  }

  /** On accepted texts without leap seconds, the value orders texts exactly as their calendar fields do. */
  lemma {:induction false} ParseKeepsOrder(s: string, t: string)
    requires ParseTimestamp(s).Nanoseconds? && ParseTimestamp(t).Nanoseconds?
    requires CivilOf(s).second <= 59 && CivilOf(t).second <= 59
    ensures ParseTimestamp(s).value < ParseTimestamp(t).value <==> CivilOf(s).Before(CivilOf(t))
    ensures ParseTimestamp(s).value == ParseTimestamp(t).value <==> CivilOf(s) == CivilOf(t)
  {
    hide Framed, Tailed, CivilOf, ParseTimestamp, Leap, MonthDays, DayCount, Instant;
    ParseIsInstant(s);
    ParseIsInstant(t);
    var a, b := CivilOf(s), CivilOf(t);
    if a.Before(b) { InstantKeepsOrder(a, b); }
    if b.Before(a) { InstantKeepsOrder(b, a); }
    assert a == b || a.Before(b) || b.Before(a);
  }

  /** On all accepted texts: the value orders two texts as their fields do, except exactly across a leap second. */
  lemma {:induction false} ParseOrderLostIff(s: string, t: string)
    requires ParseTimestamp(s).Nanoseconds? && ParseTimestamp(t).Nanoseconds? && CivilOf(s).Before(CivilOf(t))
    ensures CivilOf(s).Valid() && CivilOf(t).Valid() && !CivilOf(s).date.Before(Epoch) && !CivilOf(t).date.Before(Epoch)
    ensures ParseTimestamp(s).value >= ParseTimestamp(t).value <==> LeapOverlap(CivilOf(s), CivilOf(t))
  {
    hide Framed, Tailed, CivilOf, ParseTimestamp, Leap, MonthDays, DayCount, Instant, LeapOverlap, Civil.Before;
    ParseIsInstant(s);
    ParseIsInstant(t);
    OrderLostIff(CivilOf(s), CivilOf(t));
  }

  const LastSecondOf2016 := "2016-12-31T23:59:60.5Z"
  const FirstSecondOf2017 := "2017-01-01T00:00:00.2Z"

  lemma {:induction false} TwoDigits(s: string, from: nat)
    requires DigitsAt(s, from, 2)
    ensures Number(s, from, 2) == DigitValue(s[from]) * 10 + DigitValue(s[from + 1])
  {
    assert Number(s, from, 1) == Number(s, from, 0) * 10 + DigitValue(s[from]);
  }

  lemma {:induction false} DateDigits(s: string)
    requires Framed(s)
    ensures Number(s, 0, 4) ==
      ((DigitValue(s[0]) * 10 + DigitValue(s[1])) * 10 + DigitValue(s[2])) * 10 + DigitValue(s[3])
    ensures Number(s, 5, 2) == DigitValue(s[5]) * 10 + DigitValue(s[6])
      && Number(s, 8, 2) == DigitValue(s[8]) * 10 + DigitValue(s[9])
    ensures Number(s, 11, 2) == DigitValue(s[11]) * 10 + DigitValue(s[12])
      && Number(s, 14, 2) == DigitValue(s[14]) * 10 + DigitValue(s[15])
    ensures Number(s, 17, 2) == DigitValue(s[17]) * 10 + DigitValue(s[18])
  {
    hide DigitValue;
    TwoDigits(s, 0);
    TwoDigits(s, 5);
    TwoDigits(s, 8);
    TwoDigits(s, 11);
    TwoDigits(s, 14);
    TwoDigits(s, 17);
    assert Number(s, 0, 3) == Number(s, 0, 2) * 10 + DigitValue(s[2]);
  }

  // A fraction of one digit.
  lemma {:induction false} OneDigitTail(s: string)
    requires |s| == 22 && s[19] == '.' && IsDigit(s[20]) && s[21] == 'Z'
    ensures Tailed(s) && Fraction(s) == DigitValue(s[20]) * 100_000_000
  {
    assert DigitRun(s, 21) == 0 && DigitRun(s, 20) == 1;
    assert Number(s, 20, 1) == Number(s, 20, 0) * 10 + DigitValue(s[20]);
    assert Pow10(3) == 1000 && Pow10(6) == 1_000_000 && Pow10(8) == 100_000_000;
  }

  lemma {:induction false} LeapText()
    ensures Framed(LastSecondOf2016) && Tailed(LastSecondOf2016)
    ensures CivilOf(LastSecondOf2016) == Civil(Date(2016, 12, 31), 23, 59, 60, 500_000_000)
  {
    assert Framed(LastSecondOf2016);
    hide Number, Fraction, Tailed;
    OneDigitTail(LastSecondOf2016);
    DateDigits(LastSecondOf2016);
  }

  lemma {:induction false} NextText()
    ensures Framed(FirstSecondOf2017) && Tailed(FirstSecondOf2017)
    ensures CivilOf(FirstSecondOf2017) == Civil(Date(2017, 1, 1), 0, 0, 0, 200_000_000)
  {
    assert Framed(FirstSecondOf2017);
    hide Number, Fraction, Tailed;
    OneDigitTail(FirstSecondOf2017);
    DateDigits(FirstSecondOf2017);
  }

  lemma {:induction false} LeapDates()
    ensures Date(2016, 12, 31).Valid() && DaysFromCivil(Date(2016, 12, 31)) == 17166
    ensures Date(2017, 1, 1).Valid() && DaysFromCivil(Date(2017, 1, 1)) == 17167
  {
  }

  /** The real leap second at the end of 2016: half a second into it parses to more than the next year's first 0.2 s. */
  lemma {:induction false} LeapSecondReverses()
    ensures Framed(LastSecondOf2016) && Tailed(LastSecondOf2016) && Framed(FirstSecondOf2017)
      && Tailed(FirstSecondOf2017)
    ensures CivilOf(LastSecondOf2016).Before(CivilOf(FirstSecondOf2017))
    ensures ParseTimestamp(LastSecondOf2016) == Nanoseconds(1_483_228_800_500_000_000)
    ensures ParseTimestamp(FirstSecondOf2017) == Nanoseconds(1_483_228_800_200_000_000)
  {
    LeapText();
    NextText();
    LeapDates();
    hide Framed, Tailed, CivilOf, DaysFromCivil, Date.Valid;
  }

  // ---- The loop over the fraction ----

  /** Scans the optional fraction; `ok` is false where the source throws. */
  method ScanFraction(s: string) returns (ok: bool, fraction: nat, cursor: nat)
    requires |s| >= 20
    ensures ok && cursor + 1 == |s| && s[cursor] == 'Z' <==> Tailed(s)
    ensures Tailed(s) ==> fraction == Fraction(s) && fraction < 1_000_000_000
    ensures ok ==> 19 <= cursor <= |s|
  {
    hide Number, Pow10, IsDigit;
    ok, fraction, cursor := true, 0, 19;
    var digits := 0;
    if s[19] == '.' {
      cursor := 20;
      NumberOfNone(s, 20);
      while cursor < |s| && IsDigit(s[cursor])
        invariant 20 <= cursor <= |s| && digits == cursor - 20 <= 9 && DigitsAt(s, 20, digits)
        invariant fraction == Number(s, 20, digits)
        decreases |s| - cursor
      {
        if digits == 9 {
          LongRun(s, 20, 10);
          ok := false;
          return;
        }
        NumberSnoc(s, 20, digits);
        fraction := fraction * 10 + DigitValue(s[cursor]);
        digits, cursor := digits + 1, cursor + 1;
      }
      RunEnds(s, 20, digits);
      if digits == 0 { ok := false; return; }
      NumberBound(s, 20, digits);
    }
    ghost var read, seen := fraction, digits;
    ScaledByNothing(fraction);
    while digits < 9
      invariant seen <= digits <= 9 && fraction == read * Pow10(digits - seen)
    {
      ScaledOnce(read, digits - seen);
      fraction, digits := fraction * 10, digits + 1;
    }
    FractionBound(read, seen);
  }

  method ParseTimestampNs(s: string) returns (r: Parsed)
    ensures r == ParseTimestamp(s)
  {
    hide Number, DaysFromCivil, Leap, MonthDays, Fraction, DigitsAt;
    if !Framed(s) { return InvalidArgument; }
    var date := Date(Number(s, 0, 4), Number(s, 5, 2), Number(s, 8, 2));
    var hour, minute, second := Number(s, 11, 2), Number(s, 14, 2), Number(s, 17, 2);
    if !date.Valid() || hour > 23 || minute > 59 || second > 60 {
      if Tailed(s) { assert !CivilOf(s).Valid(); }
      return InvalidArgument;
    }
    var ok, fraction, cursor := ScanFraction(s);
    if !ok || cursor >= |s| || s[cursor] != 'Z' || cursor + 1 != |s| { return InvalidArgument; }
    var days := DaysFromCivil(date);
    if days < 0 { return InvalidArgument; }
    var seconds: nat := days * 86400 + hour * 3600 + minute * 60 + second;
    if seconds > (Max64 - fraction) / 1_000_000_000 { return OutOfRange; }
    r := Nanoseconds(seconds * 1_000_000_000 + fraction);
  }

  lemma {:induction false} NumberOfNone(s: string, from: nat)
    requires from <= |s|
    ensures Number(s, from, 0) == 0
  {
  }

  lemma {:induction false} NumberSnoc(s: string, from: nat, n: nat)
    requires DigitsAt(s, from, n + 1)
    ensures DigitsAt(s, from, n) && Number(s, from, n + 1) == Number(s, from, n) * 10 + DigitValue(s[from + n])
  {
  }

  lemma {:induction false} LongRun(s: string, from: nat, n: nat)
    requires DigitsAt(s, from, n)
    ensures DigitRun(s, from) >= n
    decreases n
  {
    if n > 0 { LongRun(s, from + 1, n - 1); }
  }

  lemma {:induction false} RunEnds(s: string, from: nat, n: nat)
    requires DigitsAt(s, from, n) && (from + n < |s| ==> !IsDigit(s[from + n]))
    ensures DigitRun(s, from) == n
  {
    LongRun(s, from, n);
  }

  lemma {:induction false} ScaledByNothing(x: nat)
    ensures x == x * Pow10(0)
  {
  }

  lemma {:induction false} ScaledOnce(x: nat, n: nat)
    ensures x * Pow10(n) * 10 == x * Pow10(n + 1)
  {
  }

  lemma {:induction false} FractionBound(x: nat, n: nat)
    requires n <= 9 && (x < Pow10(n) || x == 0)
    ensures 0 <= x * Pow10(9 - n) < 1_000_000_000
  {
    Pow10Product(n, 9 - n);
    assert Pow10(9) == 1_000_000_000;
    if x < Pow10(n) { MulAtLeast(Pow10(n) - 1, x, Pow10(9 - n)); }
  }

  lemma {:induction false} Pow10Product(a: nat, b: nat)
    ensures Pow10(a) * Pow10(b) == Pow10(a + b) && Pow10(b) > 0
    decreases a
  {
    if a > 0 {
      Pow10Product(a - 1, b);
      assert Pow10(a) * Pow10(b) == 10 * (Pow10(a - 1) * Pow10(b));
    } else {
      Pow10Positive(b);
    }
  }

  lemma {:induction false} Pow10Positive(b: nat)
    ensures Pow10(b) > 0
  {
    if b > 0 { Pow10Positive(b - 1); }
  }
}
