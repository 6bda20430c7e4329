/**
 * The Gregorian calendar, as far as the bill generator and the monthly
 * aggregation need it. A day is a day number counted from the epoch
 * 2023-01-01 (day 0); the generator adds whole days to that date and reads
 * back its calendar month, and the monthly aggregation buckets bill dates by
 * calendar month.
 */
module Calendar {

  /** Day 0 is the first of January of this year. */
  const EpochYear := 2023

  datatype Date = Date(year: int, month: int, day: int)

  predicate IsLeapYear(y: int) {
    y % 4 == 0 && (y % 100 != 0 || y % 400 == 0)
  }

  function DaysInMonth(y: int, m: int): (n: int)
    requires 1 <= m <= 12
    ensures 28 <= n <= 31
    ensures m == 2 ==> (n == 29 <==> IsLeapYear(y)) && n <= 29
    ensures m != 2 ==> (n == 30 <==> (m == 4 || m == 6 || m == 9 || m == 11)) && n >= 30
  {
    if m == 2 then (if IsLeapYear(y) then 29 else 28)
    else if m == 4 || m == 6 || m == 9 || m == 11 then 30
    else 31
  }

  /** Days of year `y` that lie before the first of month `m` (m = 13 gives the whole year). */
  function DaysBeforeMonth(y: int, m: int): nat
    requires 1 <= m <= 13
  {
    if m == 1 then 0 else DaysBeforeMonth(y, m - 1) + DaysInMonth(y, m - 1)
  }

  function YearLength(y: int): nat {
    DaysBeforeMonth(y, 13)
  }

  lemma YearLengthIsLeap(y: int)
    ensures YearLength(y) == if IsLeapYear(y) then 366 else 365
  {
    assert DaysBeforeMonth(y, 2) == 31;
    assert DaysBeforeMonth(y, 3) == 31 + DaysInMonth(y, 2);
    assert DaysBeforeMonth(y, 4) == DaysBeforeMonth(y, 3) + 31;
    assert DaysBeforeMonth(y, 5) == DaysBeforeMonth(y, 3) + 61;
    assert DaysBeforeMonth(y, 6) == DaysBeforeMonth(y, 3) + 92;
    assert DaysBeforeMonth(y, 7) == DaysBeforeMonth(y, 3) + 122;
    assert DaysBeforeMonth(y, 8) == DaysBeforeMonth(y, 3) + 153;
    assert DaysBeforeMonth(y, 9) == DaysBeforeMonth(y, 3) + 184;
    assert DaysBeforeMonth(y, 10) == DaysBeforeMonth(y, 3) + 214;
    assert DaysBeforeMonth(y, 11) == DaysBeforeMonth(y, 3) + 245;
    assert DaysBeforeMonth(y, 12) == DaysBeforeMonth(y, 3) + 275;
  }

  /** Day number of the first of January of year `y`. */
  function DaysBeforeYear(y: int): nat
    requires y >= EpochYear
    decreases y - EpochYear
  {
    if y == EpochYear then 0 else DaysBeforeYear(y - 1) + YearLength(y - 1)
  }

  /** Day number of the first day of month `m` of year `y`. */
  function MonthStart(y: int, m: int): nat
    requires y >= EpochYear && 1 <= m <= 12
  {
    DaysBeforeYear(y) + DaysBeforeMonth(y, m)
  }

  predicate ValidDate(dt: Date) {
    dt.year >= EpochYear && 1 <= dt.month <= 12 && 1 <= dt.day <= DaysInMonth(dt.year, dt.month)
  }

  function ToDayNumber(dt: Date): nat
    requires ValidDate(dt)
  {
    MonthStart(dt.year, dt.month) + dt.day - 1
  }

  /** Months counted consecutively across years, so that month order is integer order. */
  function MonthIndex(y: int, m: int): int {
    12 * y + m - 1
  }

  lemma NextMonthStart(y: int, m: int)
    requires y >= EpochYear && 1 <= m <= 12
    ensures m < 12 ==> MonthStart(y, m + 1) == MonthStart(y, m) + DaysInMonth(y, m)
    ensures m == 12 ==> MonthStart(y + 1, 1) == MonthStart(y, m) + DaysInMonth(y, m)
  {
  }

  /**
   * The date lying `d` days after the first of month `m` of year `y`: walk
   * forward month by month while `d` overruns the current month.
   */
  function Walk(y: int, m: int, d: nat): (dt: Date)
    requires y >= EpochYear && 1 <= m <= 12
    ensures ValidDate(dt)
    ensures MonthIndex(y, m) <= MonthIndex(dt.year, dt.month)
    decreases d
  {
    var n := DaysInMonth(y, m);
    if d < n then Date(y, m, d + 1)
    else if m == 12 then Walk(y + 1, 1, d - n)
    else Walk(y, m + 1, d - n)
  }

  /** Walking `d` days from the start of a month lands on the day numbered `d` later. */
  lemma {:induction false} WalkDayNumber(y: int, m: int, d: nat)
    requires y >= EpochYear && 1 <= m <= 12
    ensures ToDayNumber(Walk(y, m, d)) == MonthStart(y, m) + d
    decreases d
  {
    var n := DaysInMonth(y, m);
    if d >= n {
      NextMonthStart(y, m);
      if m == 12 {
        WalkDayNumber(y + 1, 1, d - n);
      } else {
        WalkDayNumber(y, m + 1, d - n);
      }
    }
  }

  /** The calendar date of day number `d`. */
  function FromDayNumber(d: nat): (dt: Date)
    ensures ValidDate(dt)
  {
    Walk(EpochYear, 1, d)
  }

  /** The calendar month (1..12) of day number `d`. */
  function MonthOfYear(d: nat): (m: int)
    ensures 1 <= m <= 12
  {
    FromDayNumber(d).month
  }

  /** Every day number survives the trip to a date and back. */
  lemma DayNumberRoundTrip(d: nat)
    ensures ToDayNumber(FromDayNumber(d)) == d
  {
    WalkDayNumber(EpochYear, 1, d);
  }

  /** A later month never starts earlier. */
  lemma {:induction false} MonthStartMonotone(y: int, m: int, y': int, m': int)
    requires y >= EpochYear && 1 <= m <= 12 && y' >= EpochYear && 1 <= m' <= 12
    requires MonthIndex(y, m) < MonthIndex(y', m')
    ensures MonthStart(y, m) + DaysInMonth(y, m) <= MonthStart(y', m')
    decreases MonthIndex(y', m') - MonthIndex(y, m)
  {
    NextMonthStart(y, m);
    var (ny, nm) := if m == 12 then (y + 1, 1) else (y, m + 1);
    if MonthIndex(ny, nm) < MonthIndex(y', m') {
      MonthStartMonotone(ny, nm, y', m');
    }
  }

  lemma {:induction false} WalkReaches(y: int, m: int, dt: Date)
    requires y >= EpochYear && 1 <= m <= 12 && ValidDate(dt)
    requires MonthIndex(y, m) <= MonthIndex(dt.year, dt.month)
    ensures ToDayNumber(dt) >= MonthStart(y, m)
    ensures Walk(y, m, ToDayNumber(dt) - MonthStart(y, m)) == dt
    decreases MonthIndex(dt.year, dt.month) - MonthIndex(y, m)
  {
    if MonthIndex(y, m) < MonthIndex(dt.year, dt.month) {
      MonthStartMonotone(y, m, dt.year, dt.month);
      if m == 12 {
        WalkReaches(y + 1, 1, dt);
      } else {
        WalkReaches(y, m + 1, dt);
      }
    }
  }

  /** Every valid date survives the trip to a day number and back. */
  lemma DateRoundTrip(dt: Date)
    requires ValidDate(dt)
    ensures FromDayNumber(ToDayNumber(dt)) == dt
  {
    WalkReaches(EpochYear, 1, dt);
  }

  /** A day number inside month `m` of year `y` is dated in that month. */
  lemma DayInMonth(d: nat, y: int, m: int)
    requires y >= EpochYear && 1 <= m <= 12
    requires MonthStart(y, m) <= d < MonthStart(y, m) + DaysInMonth(y, m)
    ensures FromDayNumber(d) == Date(y, m, d - MonthStart(y, m) + 1)
  {
    DateRoundTrip(Date(y, m, d - MonthStart(y, m) + 1));
  }
}
