/** Day counts and proleptic Gregorian dates (packages/core/src/date-value.ts), against a calendar that
    only knows the length of each month and the leap rule (section 3.2.1 of ISO 8601:2004). Division on
    `int` floors for the positive divisors used here, as `Math.floor` does. Months count from 0. */
module Calendar {
  const MS_PER_DAY: int := 86_400_000

  datatype Date = Date(year: int, month: int, day: int)

  // ── The calendar ─────────────────────────────────────────────────────────────────────────────

  predicate Leap(year: int) { year % 4 == 0 && (year % 100 != 0 || year % 400 == 0) }

  function MonthLength(year: int, month: int): int {
    if month in {3, 5, 8, 10} then 30 else if month == 1 then (if Leap(year) then 29 else 28) else 31
  }

  predicate ValidDate(d: Date) { 0 <= d.month <= 11 && 1 <= d.day <= MonthLength(d.year, d.month) }

  function NextDay(d: Date): Date {
    if d.day < MonthLength(d.year, d.month) then d.(day := d.day + 1)
    else if d.month < 11 then Date(d.year, d.month + 1, 1)
    else Date(d.year + 1, 0, 1)
  }

  predicate Earlier(a: Date, b: Date) {
    a.year < b.year || (a.year == b.year && (a.month < b.month || (a.month == b.month && a.day < b.day)))
  }

  // ── The conversions ──────────────────────────────────────────────────────────────────────────

  function EpochDays(milliseconds: int): int { milliseconds / MS_PER_DAY }

  function DaysFromCivil(d: Date): int {
    var y := if d.month <= 1 then d.year - 1 else d.year;
    var era := y / 400;
    var yoe := y - era * 400;
    var mp := if d.month > 1 then d.month - 2 else d.month + 10;
    var dayOfYear := (153 * mp + 2) / 5 + d.day - 1;
    var dayOfEra := yoe * 365 + yoe / 4 - yoe / 100 + dayOfYear;
    era * 146_097 + dayOfEra - 719_468
  }

  function YearOfEra(dayOfEra: int): int {
    (dayOfEra - dayOfEra / 1460 + dayOfEra / 36_524 - dayOfEra / 146_096) / 365
  }

  function CivilFromDays(days: int): Date {
    var z := days + 719_468;
    var era := z / 146_097;
    var dayOfEra := z - era * 146_097;
    var yoe := YearOfEra(dayOfEra);
    var dayOfYear := dayOfEra - (365 * yoe + yoe / 4 - yoe / 100);
    var mp := (5 * dayOfYear + 2) / 153;
    var day := dayOfYear - (153 * mp + 2) / 5 + 1;
    var month := if mp < 10 then mp + 2 else mp - 10;
    Date(yoe + era * 400 + (if month <= 1 then 1 else 0), month, day)
  }

  /** The shared scratch array the source returns: overwritten by every call. */
  class CivilScratch {
    const cells: array<int>

    constructor ()
      ensures fresh(cells) && cells.Length == 3
    {
      cells := new int[3];
    }

    method FromDays(days: int) returns (r: array<int>)
      requires cells.Length == 3
      modifies cells
      ensures r == cells && Date(r[0], r[1], r[2]) == CivilFromDays(days)
    {
      hide YearOfEra;
      var z := days + 719_468;
      var era := z / 146_097;
      var dayOfEra := z - era * 146_097;
      var yoe := YearOfEra(dayOfEra);
      var dayOfYear := dayOfEra - (365 * yoe + yoe / 4 - yoe / 100);
      var mp := (5 * dayOfYear + 2) / 153;
      var day := dayOfYear - (153 * mp + 2) / 5 + 1;
      var month := if mp < 10 then mp + 2 else mp - 10;
      var year := yoe + era * 400 + (if month <= 1 then 1 else 0);
      cells[0] := year;
      cells[1] := month;
      cells[2] := day;
      r := cells;
    }
  }

  // ── From dates to days ───────────────────────────────────────────────────────────────────────

  /** The year that starts in March and the month counted from March. */
  function MarchYear(d: Date): int { if d.month <= 1 then d.year - 1 else d.year }
  function MarchMonth(d: Date): int { if d.month > 1 then d.month - 2 else d.month + 10 }

  /** Days before March year `y` and before March month `mp` in it. */
  function YearStart(y: int): int { 365 * y + y / 4 - y / 100 + y / 400 }
  function MonthStart(mp: int): int { (153 * mp + 2) / 5 }

  lemma DaysSplit(d: Date)
    ensures DaysFromCivil(d) == YearStart(MarchYear(d)) + MonthStart(MarchMonth(d)) + d.day - 1 - 719_468
  {
    var y := MarchYear(d);
    var era, yoe := y / 400, y % 400;
    assert y - era * 400 == yoe && y == 400 * era + yoe;
    assert y / 4 == 100 * era + yoe / 4;
    assert y / 100 == 4 * era + yoe / 100;
  }

  lemma YearLength(y: int)
    ensures YearStart(y + 1) - YearStart(y) == if Leap(y + 1) then 366 else 365
  {
    Carry(y, 4);
    Carry(y, 100);
    Carry(y, 400);
    LeapCarries(y + 1);
  }

  /** A leap year is one more multiple of 4, of 100 and of 400, with their signs. */
  lemma LeapCarries(y: int)
    ensures (if y % 4 == 0 then 1 else 0) - (if y % 100 == 0 then 1 else 0) + (if y % 400 == 0 then 1 else 0)
         == if Leap(y) then 1 else 0
  {
  }

  lemma Carry(y: int, m: int)
    requires m in {4, 100, 400}
    ensures (y + 1) / m == y / m + (if (y + 1) % m == 0 then 1 else 0)
  {
  }

  /** The months from March, of which only the last, February, varies. */
  lemma MonthSpans(year: int, month: int)
    requires 0 <= month <= 11 && month != 1
    ensures var mp := MarchMonth(Date(year, month, 1)); MonthStart(mp + 1) == MonthStart(mp) + MonthLength(year, month)
  {
    assert MonthStart(0) == 0 && MonthStart(1) == 31 && MonthStart(2) == 61 && MonthStart(3) == 92;
    assert MonthStart(4) == 122 && MonthStart(5) == 153 && MonthStart(6) == 184 && MonthStart(7) == 214;
    assert MonthStart(8) == 245 && MonthStart(9) == 275 && MonthStart(10) == 306 && MonthStart(11) == 337;
  }

  /** The next date is the next day. */
  lemma NextDayCounts(d: Date)
    requires ValidDate(d)
    ensures ValidDate(NextDay(d)) && DaysFromCivil(NextDay(d)) == DaysFromCivil(d) + 1
  {
    hide DaysFromCivil, YearStart, MonthStart;
    DaysSplit(d);
    DaysSplit(NextDay(d));
    YearLength(d.year - 1);
    if d.month != 1 { MonthSpans(d.year, d.month); } else { FebruaryEnds(); }
  }

  lemma FebruaryEnds() ensures MonthStart(11) == 337 && MonthStart(0) == 0 {}

  // ── From days to dates ───────────────────────────────────────────────────────────────────────

  lemma AtLeastOnce(d: int, m: int)
    requires d >= 1 && m >= 1
    ensures d * m >= m
  {
  }

  lemma Quotient(n: int, m: int, q: int)
    requires m > 0 && q * m <= n < q * m + m
    ensures n / m == q
  {
    var p := n / m;
    var s, t := p * m, q * m;
    assert s <= n < s + m;
    assert (p - q) * m == s - t && (q - p) * m == t - s;
    if p > q { AtLeastOnce(p - q, m); }
    if q > p { AtLeastOnce(q - p, m); }
  }

  /** The year of an era, from its century, its four-year cycle and its year in that. */
  lemma EraYear(c: int, q: int, r: int, k: int)
    requires 0 <= c <= 3 && 0 <= q <= 24 && 0 <= r <= 3
    requires 0 <= k <= 364 || (k == 365 && r == 3 && (q < 24 || c == 3))
    ensures YearOfEra(36_524 * c + 1461 * q + 365 * r + k) == 100 * c + 4 * q + r
  {
    var n := 36_524 * c + 1461 * q + 365 * r + k;
    var t := 24 * c + q + 365 * r + k;
    var over := if t >= 1460 then 1 else 0;
    var last := if q == 24 && r == 3 && k == 365 then 1 else 0;
    Quotient(n, 1460, 25 * c + q + over);
    Quotient(n, 36_524, c + last);
    Quotient(n, 146_096, last);
    Quotient(n - n / 1460 + n / 36_524 - n / 146_096, 365, 100 * c + 4 * q + r);
  }

  /** Within an era of 146 097 days, the division finds the year the day is in. */
  lemma EraDay(n: int)
    requires 0 <= n < 146_097
    ensures var yoe := YearOfEra(n);
      && 0 <= yoe < 400
      && YearStart(yoe) == 365 * yoe + yoe / 4 - yoe / 100
      && YearStart(yoe) <= n < YearStart(yoe) + (if Leap(yoe + 1) then 366 else 365)
  {
    hide YearOfEra;
    var c := if n / 36_524 < 4 then n / 36_524 else 3;
    var inCentury := n - 36_524 * c;
    var q := if inCentury / 1461 < 25 then inCentury / 1461 else 24;
    var inCycle := inCentury - 1461 * q;
    var r := if inCycle / 365 < 4 then inCycle / 365 else 3;
    EraYear(c, q, r, inCycle - 365 * r);
    var yoe := 100 * c + 4 * q + r;
    Quotient(yoe, 4, 25 * c + q);
    Quotient(yoe, 100, c);
    Quotient(yoe, 400, 0);
  }

  /** The date a March year and a day in it stand for. */
  function DateIn(y: int, n: int): Date {
    var mp := (5 * n + 2) / 153;
    var month := if mp < 10 then mp + 2 else mp - 10;
    Date(y + (if month <= 1 then 1 else 0), month, n - MonthStart(mp) + 1)
  }

  lemma DateInYear(y: int, n: int)
    requires 0 <= n < if Leap(y + 1) then 366 else 365
    ensures ValidDate(DateIn(y, n)) && DaysFromCivil(DateIn(y, n)) == YearStart(y) + n - 719_468
  {
    hide YearStart, Leap, DaysFromCivil;
    DaysSplit(DateIn(y, n));
  }

  /** Every day count is a valid date's, and converts back. */
  lemma DayOfDateOfDay(days: int)
    ensures ValidDate(CivilFromDays(days)) && DaysFromCivil(CivilFromDays(days)) == days
  {
    hide *;
    var era, n := EraOf(days), DayOfEra(days);
    var yoe := YearOfEra(n);
    CivilParts(days);
    EraDay(n);
    SameLeap(yoe + 1, era);
    EraStart(yoe, era);
    DateInYear(yoe + era * 400, n - YearStart(yoe));
  }

  function EraOf(days: int): int { (days + 719_468) / 146_097 }
  function DayOfEra(days: int): int { (days + 719_468) % 146_097 }

  lemma CivilParts(days: int)
    ensures 0 <= DayOfEra(days) < 146_097 && days + 719_468 == EraOf(days) * 146_097 + DayOfEra(days)
    ensures var yoe := YearOfEra(DayOfEra(days));
      CivilFromDays(days) == DateIn(yoe + EraOf(days) * 400, DayOfEra(days) - (365 * yoe + yoe / 4 - yoe / 100))
  {
    hide YearOfEra;
  }

  lemma SameLeap(y: int, era: int)
    ensures Leap(y + era * 400) == Leap(y)
  {
    var z := y + era * 400;
    assert z / 4 == y / 4 + era * 100 && z / 100 == y / 100 + era * 4 && z / 400 == y / 400 + era;
    assert z % 4 == z - z / 4 * 4 && z % 100 == z - z / 100 * 100 && z % 400 == z - z / 400 * 400;
    assert y % 4 == y - y / 4 * 4 && y % 100 == y - y / 100 * 100 && y % 400 == y - y / 400 * 400;
  }

  /** 400 years are 146 097 days. */
  lemma EraStart(y: int, era: int)
    ensures YearStart(y + era * 400) == YearStart(y) + era * 146_097
  {
    assert (y + era * 400) / 4 == y / 4 + era * 100;
    assert (y + era * 400) / 100 == y / 100 + era * 4;
    assert (y + era * 400) / 400 == y / 400 + era;
  }

  // ── Order ────────────────────────────────────────────────────────────────────────────────────

  lemma {:induction false} LaterYear(a: int, b: int)
    requires a <= b
    ensures YearStart(b) - YearStart(a) >= 365 * (b - a)
    decreases b - a
  {
    if a < b {
      LaterYear(a, b - 1);
      YearLength(b - 1);
    }
  }

  lemma InMarchYear(d: Date)
    requires ValidDate(d)
    ensures 0 <= MarchMonth(d) <= 11
    ensures 0 <= MonthStart(MarchMonth(d)) + d.day - 1 < if Leap(MarchYear(d) + 1) then 366 else 365
    ensures forall mp :: MarchMonth(d) < mp <= 11 ==> MonthStart(MarchMonth(d)) + d.day <= MonthStart(mp)
  {
    if d.month != 1 {
      MonthSpans(d.year, d.month);
    }
  }

  /** Days count strictly in date order. */
  lemma DaysIncrease(a: Date, b: Date)
    requires ValidDate(a) && ValidDate(b) && Earlier(a, b)
    ensures DaysFromCivil(a) < DaysFromCivil(b)
  {
    hide DaysFromCivil, YearStart, MonthStart, Leap;
    InMarchYear(a);
    InMarchYear(b);
    DaysSplit(a);
    DaysSplit(b);
    var y := MarchYear(a);
    if y < MarchYear(b) {
      YearLength(y);
      LaterYear(y + 1, MarchYear(b));
    }
  }

  /** Every valid date converts to a day count and back. */
  lemma DateOfDayOfDate(d: Date)
    requires ValidDate(d)
    ensures CivilFromDays(DaysFromCivil(d)) == d
  {
    var back := CivilFromDays(DaysFromCivil(d));
    DayOfDateOfDay(DaysFromCivil(d));
    if Earlier(d, back) { DaysIncrease(d, back); } else if Earlier(back, d) { DaysIncrease(back, d); }
  }

  /** The date of the next day is the next date of the calendar. */
  lemma CivilFollowsCalendar(days: int)
    ensures CivilFromDays(days + 1) == NextDay(CivilFromDays(days))
  {
    hide CivilFromDays, DaysFromCivil, NextDay;
    DayOfDateOfDay(days);
    NextDayCounts(CivilFromDays(days));
    DateOfDayOfDate(NextDay(CivilFromDays(days)));
  }

  /** The calendar repeats every 400 years, 146 097 days. */
  lemma CivilRepeats(days: int, eras: int)
    ensures var d := CivilFromDays(days); CivilFromDays(days + eras * 146_097) == d.(year := d.year + eras * 400)
  {
    hide *;
    CivilParts(days);
    CivilParts(days + eras * 146_097);
    EraShift(days, eras);
    var yoe := YearOfEra(DayOfEra(days));
    DateInShift(yoe + EraOf(days) * 400, eras * 400, DayOfEra(days) - (365 * yoe + yoe / 4 - yoe / 100));
  }

  lemma EraShift(days: int, eras: int)
    ensures EraOf(days + eras * 146_097) == EraOf(days) + eras && DayOfEra(days + eras * 146_097) == DayOfEra(days)
  {
    Quotient(days + eras * 146_097 + 719_468, 146_097, EraOf(days) + eras);
  }

  lemma DateInShift(y: int, shift: int, n: int)
    ensures DateIn(y + shift, n) == DateIn(y, n).(year := DateIn(y, n).year + shift)
  {
  }

  /** `epochDays` floors: a millisecond belongs to the day it is in, before the epoch too. */
  lemma EpochDaysFloor(milliseconds: int, days: int)
    ensures EpochDays(milliseconds) == days <==> days * MS_PER_DAY <= milliseconds < (days + 1) * MS_PER_DAY
  {
    if days * MS_PER_DAY <= milliseconds < (days + 1) * MS_PER_DAY { Quotient(milliseconds, MS_PER_DAY, days); }
  }

  /** Day 0 is 1 January 1970. */
  lemma EpochIsZero()
    ensures DaysFromCivil(Date(1970, 0, 1)) == 0 && CivilFromDays(0) == Date(1970, 0, 1)
  {
    hide DaysFromCivil, CivilFromDays;
    DaysSplit(Date(1970, 0, 1));
    assert YearStart(1969) == 719_162 && MonthStart(10) == 306;
    DateOfDayOfDate(Date(1970, 0, 1));
  }
}
