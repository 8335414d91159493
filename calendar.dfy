/** Calendar arithmetic on day numbers.

    A day number counts days from 1970-01-01 (day 0, a Thursday) in the
    proleptic Gregorian calendar; negative numbers are earlier days.  The
    consumption trends group daily samples by the week ending on Sunday and
    by calendar month, and label each group with the day number of its last
    day, the way the weekly ("W") and monthly ("M") resampling of the
    dashboard labels its periods.

    Month number q is month q % 12 + 1 (1 = January) of year q / 12, so
    consecutive months have consecutive numbers. */
module Calendar {

  /** The month number of January 1970, the month of day 0. */
  const Epoch: int := 12 * 1970

  /** The day number of the Sunday that closes the Monday-to-Sunday week of
      `day`.  Day 3 (1970-01-04) is a Sunday. */
  function WeekEnd(day: int): (sunday: int)
    ensures day <= sunday <= day + 6
    ensures (sunday - 3) % 7 == 0
  {
    3 + 7 * ((day + 3) / 7)
  }

  lemma WeekEndIdempotent(day: int)
    ensures WeekEnd(WeekEnd(day)) == WeekEnd(day)
  {
    var q := (day + 3) / 7;
    assert WeekEnd(day) + 3 == 7 * q + 6;
    assert (7 * q + 6) / 7 == q;
  }

  lemma WeekEndMonotone(a: int, b: int)
    requires a <= b
    ensures WeekEnd(a) <= WeekEnd(b)
  {
  }

  /** Month number of civil `year` and `month` (1 = January). */
  function MonthNumber(year: int, month: int): (q: int)
    requires 1 <= month <= 12
    ensures q / 12 == year && q % 12 == month - 1
  {
    12 * year + month - 1
  }

  /** Gregorian leap years: divisible by 4, except century years not divisible by 400. */
  predicate IsLeapYear(year: int)
  {
    year % 4 == 0 && (year % 100 != 0 || year % 400 == 0)
  }

  /** The number of days of month number `q`. */
  function DaysIn(q: int): (n: int)
    ensures 28 <= n <= 31
  {
    var month := q % 12 + 1;
    if month == 2 then (if IsLeapYear(q / 12) then 29 else 28)
    else if month == 4 || month == 6 || month == 9 || month == 11 then 30
    else 31
  }

  /** The day number of the first day of month number `q`: January 1970
      starts on day 0 and every month starts where the one before it ends. */
  function MonthStart(q: int): int
    decreases if q < Epoch then Epoch - q else q - Epoch
  {
    if q == Epoch then 0
    else if q > Epoch then MonthStart(q - 1) + DaysIn(q - 1)
    else MonthStart(q + 1) - DaysIn(q)
  }

  lemma MonthStep(q: int)
    ensures MonthStart(q + 1) == MonthStart(q) + DaysIn(q)
  {
  }

  lemma {:induction false} MonthStartMonotone(a: int, b: int)
    requires a <= b
    ensures MonthStart(a) <= MonthStart(b)
    ensures a < b ==> MonthStart(a) < MonthStart(b)
    decreases b - a
  {
    if a < b {
      MonthStep(a);
      MonthStartMonotone(a + 1, b);
    }
  }

  /** Walks upward from month q to the month that contains `day`. */
  function MonthUp(day: int, q: int): (r: int)
    requires MonthStart(q) <= day
    ensures MonthStart(r) <= day < MonthStart(r + 1)
    decreases day - MonthStart(q)
  {
    if day < MonthStart(q + 1) then q
    else
      MonthStep(q);
      MonthUp(day, q + 1)
  }

  /** Walks downward from month q to the month that contains `day`. */
  function MonthDown(day: int, q: int): (r: int)
    requires day < MonthStart(q + 1)
    ensures MonthStart(r) <= day < MonthStart(r + 1)
    decreases MonthStart(q) - day
  {
    if MonthStart(q) <= day then q
    else
      MonthStep(q - 1);
      MonthDown(day, q - 1)
  }

  /** The month number of the month that contains `day`, found by walking
      from January 1970. */
  function MonthOf(day: int): (q: int)
    ensures MonthStart(q) <= day < MonthStart(q + 1)
  {
    if 0 <= day then MonthUp(day, Epoch) else MonthDown(day, Epoch - 1)
  }

  /** Exactly one month contains a day. */
  lemma MonthOfUnique(day: int, q: int)
    requires MonthStart(q) <= day < MonthStart(q + 1)
    ensures MonthOf(day) == q
  {
    var r := MonthOf(day);
    if r < q {
      MonthStartMonotone(r + 1, q);
    } else if q < r {
      MonthStartMonotone(q + 1, r);
    }
  }

  /** The day number of the last day of the month that contains `day`. */
  function MonthEnd(day: int): (last: int)
    ensures day <= last
    ensures MonthStart(MonthOf(day)) <= day
    ensures last + 1 == MonthStart(MonthOf(day) + 1)
  {
    MonthStart(MonthOf(day) + 1) - 1
  }

  lemma MonthEndIdempotent(day: int)
    ensures MonthEnd(MonthEnd(day)) == MonthEnd(day)
  {
    MonthOfUnique(MonthEnd(day), MonthOf(day));
  }

  lemma MonthOfMonotone(a: int, b: int)
    requires a <= b
    ensures MonthOf(a) <= MonthOf(b)
  {
    var qa, qb := MonthOf(a), MonthOf(b);
    if qb < qa {
      MonthStartMonotone(qb + 1, qa);
    }
  }

  lemma MonthEndMonotone(a: int, b: int)
    requires a <= b
    ensures MonthEnd(a) <= MonthEnd(b)
  {
    MonthOfMonotone(a, b);
    MonthStartMonotone(MonthOf(a) + 1, MonthOf(b) + 1);
  }

  /** Fixed points of the calendar: 1970-01-04 is a Sunday, March 1970
      starts on day 59, and February has 29 days in 2000 and 2024 but 28 in
      1900 and 2100. */
  lemma KnownDates()
    ensures WeekEnd(0) == 3
    ensures MonthStart(MonthNumber(1970, 3)) == 59
    ensures DaysIn(MonthNumber(2000, 2)) == 29 && DaysIn(MonthNumber(2024, 2)) == 29
    ensures DaysIn(MonthNumber(1900, 2)) == 28 && DaysIn(MonthNumber(2100, 2)) == 28
  {
  }
}
