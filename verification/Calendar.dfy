/**
 Epoch milliseconds to a UTC timestamp: the day-count arithmetic is proved against a
 calendar that only knows how one day follows another.
 */
module Calendar {
  import opened Text
  import opened Division

  datatype Date = Date(year: int, month: int, day: int)

  // ---------- the Gregorian calendar, day by day ----------

  predicate Leap(year: int) {
    year % 4 == 0 && (year % 100 != 0 || year % 400 == 0)
  }

  function DaysIn(year: int, month: int): int {
    if month == 2 then (if Leap(year) then 29 else 28)
    else if month in {4, 6, 9, 11} then 30
    else 31
  }

  predicate OnCalendar(d: Date) {
    1 <= d.month <= 12 && 1 <= d.day <= DaysIn(d.year, d.month)
  }

  function Tomorrow(d: Date): Date {
    if d.day < DaysIn(d.year, d.month) then d.(day := d.day + 1)
    else if d.month < 12 then Date(d.year, d.month + 1, 1)
    else Date(d.year + 1, 1, 1)
  }

  const EPOCH := Date(1970, 1, 1)

  /** The date `n` days after the epoch, one day at a time. */
  function DayByDay(n: nat): Date {
    if n == 0 then EPOCH else Tomorrow(DayByDay(n - 1))
  }

  predicate Before(a: Date, b: Date) {
    a.year < b.year || (a.year == b.year && (a.month < b.month || (a.month == b.month && a.day < b.day)))
  }

  // ---------- the program's arithmetic ----------

  function YearOfEra(doe: int): int {
    (doe - doe / 1460 + doe / 36_524 - doe / 146_096) / 365
  }

  function DayOfYear(doe: int, yoe: int): int {
    doe - (365 * yoe + yoe / 4 - yoe / 100)
  }

  function CivilFromDays(days: nat): Date {
    var z := days + 719_468;
    var era := z / 146_097;
    var doe := z % 146_097;
    var yoe := YearOfEra(doe);
    var doy := DayOfYear(doe, yoe);
    var mp := (5 * doy + 2) / 153;
    var day := doy - (153 * mp + 2) / 5 + 1;
    var month := if mp < 10 then mp + 3 else mp - 9;
    Date(yoe + era * 400 + (if month <= 2 then 1 else 0), month, day)
  }

  // ---------- years that begin in March ----------

  /** Days of the era before its year `y`. */
  function YearStart(y: int): int {
    365 * y + y / 4 - y / 100
  }

  /** Days of the year that begins in March of year `y`: its February is the next year's. */
  function YearLength(y: int): int {
    if Leap(y + 1) then 366 else 365
  }

  lemma YearsFollow(y: int)
    requires 0 <= y < 400
    ensures YearStart(y) + YearLength(y) == if y == 399 then 146_097 else YearStart(y + 1)
  {
    var m, w := y % 4, y % 100;
    assert (y + 1) / 4 == if m == 3 then y / 4 + 1 else y / 4;
    assert (y + 1) / 100 == if w == 99 then y / 100 + 1 else y / 100;
  }

  /** How often 1460 days fit into the era up to a day: once per four years, and once more
      late in the fourth year. */
  lemma FourYears(y: int, d: int) returns (a: int)
    requires 0 <= y < 400 && 0 <= d <= 365 && (d == 365 ==> y % 4 == 3)
    ensures (YearStart(y) + d) / 1460 == y / 4 + a
    ensures 0 <= a <= d && d - a < 365
  {
    hide Leap;
    var k, m, j := y / 4, y % 4, y / 100;
    assert j <= k;
    var doe := YearStart(y) + d;
    var q := k + 365 * m - j + d;
    assert doe == 1460 * k + q;
    if q >= 1460 {
      a := 1;
      Quotient(doe, 1460, k + 1, q - 1460);
    } else {
      a := 0;
      Quotient(doe, 1460, k, q);
    }
  }

  /** The century terms leave the number of centuries before the day. */
  lemma Centuries(y: int, d: int)
    requires 0 <= y < 400 && 0 <= d <= 365 && (d == 365 && y % 100 == 99 ==> y == 399)
    ensures (YearStart(y) + d) / 36_524 - (YearStart(y) + d) / 146_096 == y / 100
  {
    var j, w := y / 100, y % 100;
    var doe := YearStart(y) + d;
    assert y / 4 == 25 * j + w / 4;
    var r := 365 * w + w / 4 + d;
    assert doe == 36_524 * j + r;
    if y == 399 && d == 365 {
      assert doe == 146_096;
    } else {
      assert r < 36_524;
      Quotient(doe, 36_524, j, r);
      Quotient(doe, 146_096, 0, doe);
    }
  }

  lemma LastDay(y: int)
    requires 0 <= y < 400 && Leap(y + 1)
    ensures y % 4 == 3 && (y % 100 == 99 ==> y == 399)
  {
  }

  /** The division formula finds the year of every day of the era. */
  lemma YearFormula(y: int, d: int)
    requires 0 <= y < 400 && 0 <= d < YearLength(y)
    ensures YearOfEra(YearStart(y) + d) == y
  {
    if Leap(y + 1) {
      LastDay(y);
    }
    hide Leap;
    var a := FourYears(y, d);
    Centuries(y, d);
    var doe := YearStart(y) + d;
    Quotient(doe - doe / 1460 + doe / 36_524 - doe / 146_096, 365, y, d - a);
  }

  /** Every day of the era belongs to one of its 400 years. */
  lemma {:induction false} YearOfDay(doe: int, y: int) returns (year: int)
    requires 0 <= y < 400 && YearStart(y) <= doe < 146_097
    ensures y <= year < 400 && 0 <= doe - YearStart(year) < YearLength(year)
    decreases 400 - y
  {
    YearsFollow(y);
    if doe - YearStart(y) < YearLength(y) {
      year := y;
    } else {
      year := YearOfDay(doe, y + 1);
    }
  }

  // ---------- months that begin with March ----------

  function MonthStart(mp: int): int {
    (153 * mp + 2) / 5
  }

  lemma MonthFormula(d: int)
    requires 0 <= d < 366
    ensures var mp := (5 * d + 2) / 153; 0 <= mp <= 11 && MonthStart(mp) <= d < MonthStart(mp + 1)
  {
  }

  function MonthNumber(mp: int): int {
    if mp < 10 then mp + 3 else mp - 9
  }

  lemma MonthLength(mp: int, year: int)
    requires 0 <= mp < 11
    ensures MonthStart(mp + 1) - MonthStart(mp) == DaysIn(year, MonthNumber(mp))
  {
    assert MonthStart(0) == 0 && MonthStart(1) == 31 && MonthStart(2) == 61 && MonthStart(3) == 92;
    assert MonthStart(4) == 122 && MonthStart(5) == 153 && MonthStart(6) == 184 && MonthStart(7) == 214;
    assert MonthStart(8) == 245 && MonthStart(9) == 275 && MonthStart(10) == 306 && MonthStart(11) == 337;
  }

  // ---------- a day as era, year of the era and day of the year ----------

  datatype Place = Place(era: int, y: int, d: int)

  predicate InEra(p: Place) {
    0 <= p.y < 400 && 0 <= p.d < YearLength(p.y)
  }

  function NextPlace(p: Place): Place {
    if p.d + 1 < YearLength(p.y) then p.(d := p.d + 1)
    else if p.y < 399 then Place(p.era, p.y + 1, 0)
    else Place(p.era + 1, 0, 0)
  }

  function DayCount(p: Place): int {
    146_097 * p.era + YearStart(p.y) + p.d
  }

  function DateAt(p: Place): Date {
    var mp := (5 * p.d + 2) / 153;
    var month := MonthNumber(mp);
    Date(p.y + p.era * 400 + (if month <= 2 then 1 else 0), month, p.d - MonthStart(mp) + 1)
  }

  lemma FindPlace(days: nat) returns (p: Place)
    ensures InEra(p) && DayCount(p) == days + 719_468 && DateAt(p) == CivilFromDays(days)
  {
    hide YearOfEra, YearLength;
    var z := days + 719_468;
    var doe := z % 146_097;
    var y := YearOfDay(doe, 0);
    p := Place(z / 146_097, y, doe - YearStart(y));
    YearFormula(y, p.d);
  }

  lemma PlaceUnique(p: Place, q: Place)
    requires InEra(p) && InEra(q) && DayCount(p) == DayCount(q)
    ensures p == q
  {
    hide YearLength, YearOfEra;
    StartsRise(p.y, 399);
    StartsRise(q.y, 399);
    Quotient(DayCount(p), 146_097, p.era, YearStart(p.y) + p.d);
    Quotient(DayCount(q), 146_097, q.era, YearStart(q.y) + q.d);
    YearFormula(p.y, p.d);
    YearFormula(q.y, q.d);
  }

  lemma {:induction false} StartsRise(a: int, b: int)
    requires 0 <= a <= b < 400
    ensures YearStart(a) + YearLength(a) <= YearStart(b) + YearLength(b) <= 146_097
    decreases b - a
  {
    YearsFollow(b);
    if a < b {
      YearsFollow(b - 1);
      StartsRise(a, b - 1);
    } else if b < 399 {
      assert YearStart(b + 1) <= 146_097;
    }
  }

  lemma NextPlaceCounts(p: Place)
    requires InEra(p)
    ensures InEra(NextPlace(p)) && DayCount(NextPlace(p)) == DayCount(p) + 1
  {
    YearsFollow(p.y);
  }

  /** February of the March-based year belongs to the next calendar year. */
  lemma NextPlaceDate(p: Place)
    requires InEra(p)
    ensures OnCalendar(DateAt(p)) && DateAt(NextPlace(p)) == Tomorrow(DateAt(p))
  {
    MonthFormula(p.d);
    LeapByEra(p.y + 1, p.era);
    if (5 * p.d + 2) / 153 < 11 {
      BeforeFebruary(p);
    } else {
      InFebruary(p);
    }
  }

  lemma BeforeFebruary(p: Place)
    requires InEra(p) && (5 * p.d + 2) / 153 < 11
    ensures OnCalendar(DateAt(p)) && DateAt(NextPlace(p)) == Tomorrow(DateAt(p))
  {
    hide Leap, DaysIn, MonthStart;
    var mp := (5 * p.d + 2) / 153;
    MonthFormula(p.d);
    MonthLength(mp, DateAt(p).year);
    MonthEnds(p.d);
    NextInYear(p.d);
    assert NextPlace(p) == p.(d := p.d + 1);
  }

  lemma NextInYear(d: int)
    requires 0 <= d < 365 && (5 * d + 2) / 153 < 11
    ensures var mp := (5 * d + 2) / 153;
      (5 * (d + 1) + 2) / 153 == (if d + 1 < MonthStart(mp + 1) then mp else mp + 1)
      && d + 1 <= MonthStart(mp + 1)
  {
    var mp := (5 * d + 2) / 153;
    MonthFormula(d);
    MonthFormula(d + 1);
    if d + 1 < MonthStart(mp + 1) {
      MonthUnique(d + 1, mp);
    } else {
      MonthUnique(d + 1, mp + 1);
    }
  }

  lemma MonthEnds(d: int)
    requires 0 <= d < 366
    ensures (5 * d + 2) / 153 < 11 <==> d < 337
  {
  }

  lemma InFebruary(p: Place)
    requires InEra(p) && (5 * p.d + 2) / 153 == 11
    requires Leap(p.y + 1 + p.era * 400) == Leap(p.y + 1)
    ensures OnCalendar(DateAt(p)) && DateAt(NextPlace(p)) == Tomorrow(DateAt(p))
  {
    hide Leap;
    MonthEnds(p.d);
    assert MonthStart(11) == 337;
    if p.d + 1 < YearLength(p.y) {
      MonthEnds(p.d + 1);
      MonthFormula(p.d + 1);
    }
  }

  lemma MonthUnique(d: int, mp: int)
    requires 0 <= d < 366 && 0 <= mp <= 11 && MonthStart(mp) <= d < MonthStart(mp + 1)
    ensures (5 * d + 2) / 153 == mp
  {
  }

  lemma LeapByEra(year: int, era: int)
    ensures Leap(year + era * 400) == Leap(year)
  {
    assert (year + era * 400) % 4 == year % 4 by { Shift(year, era * 100, 4); }
    assert (year + era * 400) % 100 == year % 100 by { Shift(year, era * 4, 100); }
    assert (year + era * 400) % 400 == year % 400 by { Shift(year, era, 400); }
  }

  lemma Shift(x: int, k: int, n: int)
    requires n == 4 || n == 100 || n == 400
    ensures (x + k * n) % n == x % n
  {
  }

  // ---------- the main results ----------

  lemma NextDay(days: nat)
    ensures OnCalendar(CivilFromDays(days))
    ensures CivilFromDays(days + 1) == Tomorrow(CivilFromDays(days))
  {
    hide CivilFromDays, DateAt, InEra, NextPlace, DayCount;
    var p := FindPlace(days);
    var q := FindPlace(days + 1);
    NextPlaceCounts(p);
    PlaceUnique(q, NextPlace(p));
    NextPlaceDate(p);
  }

  /** The arithmetic is the calendar: for every day, the date reached one day at a time. */
  lemma {:induction false} CivilIsDayByDay(days: nat)
    ensures CivilFromDays(days) == DayByDay(days) && OnCalendar(CivilFromDays(days))
  {
    hide CivilFromDays, OnCalendar, Tomorrow;
    NextDay(days);
    if days > 0 {
      NextDay(days - 1);
      CivilIsDayByDay(days - 1);
    } else {
      FirstDay();
    }
  }

  lemma FirstDay()
    ensures CivilFromDays(0) == EPOCH
  {
    hide YearOfEra, Leap;
    assert YearStart(369) + 306 == 135_080;
    assert 719_468 / 146_097 == 4 && 719_468 % 146_097 == 135_080;
    YearFormula(369, 306);
    assert DayOfYear(135_080, 369) == 306 && (5 * 306 + 2) / 153 == 10 && (153 * 10 + 2) / 5 == 306;
  }

  /** Later days have later dates, so no two days share one. */
  lemma {:induction false} DatesRise(a: nat, b: nat)
    requires a < b
    ensures Before(CivilFromDays(a), CivilFromDays(b))
    decreases b
  {
    hide CivilFromDays, DaysIn;
    NextDay(b - 1);
    if a < b - 1 {
      DatesRise(a, b - 1);
    }
  }

  // ---------- the timestamp ----------

  function UtcFromEpochMs(ms: nat): string {
    var secs := ms / 1000;
    var date := CivilFromDays(secs / 86_400);
    var rem := secs % 86_400;
    Stamp(date, rem / 3600, rem % 3600 / 60, rem % 60)
  }

  /** The layout of section 5.6 of RFC 3339. */
  function Stamp(d: Date, hour: nat, minute: nat, second: nat): string {
    if d.year < 0 || d.month < 0 || d.day < 0 then ""
    else
      Padded(d.year, 4) + "-" + Padded(d.month, 2) + "-" + Padded(d.day, 2) + "T" +
      Padded(hour, 2) + ":" + Padded(minute, 2) + ":" + Padded(second, 2) + "Z"
  }

  function Number(s: string): int {
    if s != "" && AllDigits(s) then ValueOf(s) else -1
  }

  datatype Reading = Reading(date: Date, hour: int, minute: int, second: int)

  /** Reads a timestamp from its fixed positions before the end. */
  function ReadStamp(s: string): Reading
    requires |s| >= 16
  {
    var n := |s| - 16;
    Reading(Date(Number(s[..n]), Number(s[n + 1..n + 3]), Number(s[n + 4..n + 6])),
            Number(s[n + 7..n + 9]), Number(s[n + 10..n + 12]), Number(s[n + 13..n + 15]))
  }

  /** Where the separators of a timestamp stand. */
  predicate Separated(s: string) {
    var n := |s| - 16;
    && n >= 0 && s[n] == '-' && s[n + 3] == '-' && s[n + 6] == 'T'
    && s[n + 9] == ':' && s[n + 12] == ':' && s[n + 15] == 'Z'
  }

  lemma StampReadsBack(d: Date, hour: nat, minute: nat, second: nat)
    requires d.year >= 0 && 0 <= d.month < 100 && 0 <= d.day < 100 && hour < 100 && minute < 100 && second < 100
    ensures var s := Stamp(d, hour, minute, second);
      |s| == 16 + |Padded(d.year, 4)| && Separated(s) && ReadStamp(s) == Reading(d, hour, minute, second)
  {
    hide Padded, ValueOf, Number;
    var s := Stamp(d, hour, minute, second);
    var n := |Padded(d.year, 4)|;
    TwoDigits(d.month);
    TwoDigits(d.day);
    TwoDigits(hour);
    TwoDigits(minute);
    TwoDigits(second);
    YearReads(d.year);
    assert s[..n] == Padded(d.year, 4);
    assert s[n + 1..n + 3] == Padded(d.month, 2);
    assert s[n + 4..n + 6] == Padded(d.day, 2);
    assert s[n + 7..n + 9] == Padded(hour, 2);
    assert s[n + 10..n + 12] == Padded(minute, 2);
    assert s[n + 13..n + 15] == Padded(second, 2);
  }

  lemma YearReads(year: nat)
    ensures Number(Padded(year, 4)) == year
  {
    ValueOfPadded(year, 4);
  }

  lemma TwoDigits(n: nat)
    requires n < 100
    ensures |Padded(n, 2)| == 2 && Number(Padded(n, 2)) == n
  {
    assert Power10(2) == 100;
    PaddedWidth(n, 2);
    ValueOfPadded(n, 2);
  }

  /**
   For every instant: the timestamp reads back as the calendar's date and as a time of day
   whose seconds are the instant's, and it has the 20 characters of RFC 3339 exactly as long
   as the year has four digits.
   */
  lemma TimestampReadsBack(ms: nat)
    ensures var s := UtcFromEpochMs(ms);
      && |s| >= 20 && Separated(s)
      && (|s| == 20 <==> DayByDay(ms / 86_400_000).year <= 9999)
      && (var r := ReadStamp(s);
         r.date == DayByDay(ms / 86_400_000)
         && 0 <= r.hour < 24 && 0 <= r.minute < 60 && 0 <= r.second < 60
         && r.hour * 3600 + r.minute * 60 + r.second == ms / 1000 % 86_400)
  {
    hide CivilFromDays, DayByDay, OnCalendar, Padded, ReadStamp, Stamp, Tomorrow, Separated;
    var days, rem := ms / 1000 / 86_400, ms / 1000 % 86_400;
    assert days == ms / 86_400_000;
    CivilIsDayByDay(days);
    var d := CivilFromDays(days);
    DatePlain(days);
    ClockParts(rem);
    StampReadsBack(d, rem / 3600, rem % 3600 / 60, rem % 60);
    assert Power10(4) == 10_000;
    PaddedWidth(d.year, 4);
  }

  lemma ClockParts(rem: nat)
    requires rem < 86_400
    ensures rem / 3600 < 24 && rem % 3600 / 60 < 60 && rem % 60 < 60
    ensures rem / 3600 * 3600 + rem % 3600 / 60 * 60 + rem % 60 == rem
  {
    assert rem % 3600 % 60 == rem % 60;
  }

  lemma DatePlain(days: nat)
    ensures var d := CivilFromDays(days); d.year >= 1970 && 0 <= d.month < 100 && 0 <= d.day < 100
  {
    hide CivilFromDays, DayByDay;
    CivilIsDayByDay(days);
    if days > 0 {
      DatesRise(0, days);
    }
    FirstDay();
  }
}
