/** The calendar the schedule screen relies on through JavaScript `Date`:
    days are numbered by integers (day 0 is 1970-01-01) and mapped to dates of the
    proleptic Gregorian calendar by stepping one day at a time from that epoch.
    Time zones and the parsing of date strings are not part of this model. */
module Calendar {

  datatype Date = Date(year: int, month: int, day: int)

  /** Gregorian leap-year rule, extended to all years (astronomical numbering, as `getFullYear`). */
  predicate IsLeapYear(y: int)
  {
    y % 4 == 0 && (y % 100 != 0 || y % 400 == 0)
  }

  function DaysInMonth(y: int, m: int): (n: int)
    requires 1 <= m <= 12
    ensures 28 <= n <= 31
    ensures n == 29 <==> m == 2 && IsLeapYear(y)
  {
    if m == 2 then (if IsLeapYear(y) then 29 else 28)
    else if m == 4 || m == 6 || m == 9 || m == 11 then 30
    else 31
  }

  /** A real calendar date: month 1..12 (`getMonth() + 1`) and day 1..length of the month. */
  predicate IsValid(d: Date)
  {
    1 <= d.month <= 12 && 1 <= d.day <= DaysInMonth(d.year, d.month)
  }

  /** Chronological order of dates. */
  predicate Before(a: Date, b: Date)
  {
    a.year < b.year ||
    (a.year == b.year && (a.month < b.month || (a.month == b.month && a.day < b.day)))
  }

  /** `date.setDate(date.getDate() + 1)`: the following calendar day, rolling over months and years. */
  function NextDay(d: Date): (r: Date)
    requires IsValid(d)
    ensures IsValid(r)
  {
    if d.day < DaysInMonth(d.year, d.month) then Date(d.year, d.month, d.day + 1)
    else if d.month < 12 then Date(d.year, d.month + 1, 1)
    else Date(d.year + 1, 1, 1)
  }

  /** The preceding calendar day. */
  function PrevDay(d: Date): (r: Date)
    requires IsValid(d)
    ensures IsValid(r)
  {
    if d.day > 1 then Date(d.year, d.month, d.day - 1)
    else if d.month > 1 then Date(d.year, d.month - 1, DaysInMonth(d.year, d.month - 1))
    else Date(d.year - 1, 12, 31)
  }

  lemma NextOfPrev(d: Date)
    requires IsValid(d)
    ensures NextDay(PrevDay(d)) == d
  {
  }

  /** The next day is later, and no valid date lies strictly between a date and its next day. */
  lemma NextDayIsSuccessor(d: Date, z: Date)
    requires IsValid(d) && IsValid(z)
    ensures Before(d, NextDay(d))
    ensures !(Before(d, z) && Before(z, NextDay(d)))
  {
  }

  lemma BeforeTransitive(a: Date, b: Date, c: Date)
    requires Before(a, b) && Before(b, c)
    ensures Before(a, c)
  {
  }

  const Epoch := Date(1970, 1, 1)

  /** The date of day number `n`. */
  function DateOf(n: int): (d: Date)
    ensures IsValid(d)
    decreases if n < 0 then -n else n
  {
    if n == 0 then Epoch
    else if n > 0 then NextDay(DateOf(n - 1))
    else PrevDay(DateOf(n + 1))
  }

  /** `getDay()`: 0 is Sunday; 1970-01-01 was a Thursday. */
  function Weekday(n: int): (w: int)
    ensures 0 <= w < 7
  {
    (n + 4) % 7
  }

  /** Day number n + 1 is the calendar day after day number n, on both sides of the epoch. */
  lemma {:induction false} DateOfSucc(n: int)
    ensures DateOf(n + 1) == NextDay(DateOf(n))
  {
    if n < 0 {
      assert DateOf(n) == PrevDay(DateOf(n + 1));
      NextOfPrev(DateOf(n + 1));
    }
  }

  /** Consecutive day numbers advance the weekday by one, wrapping Saturday to Sunday. */
  lemma WeekdaySucc(n: int)
    ensures Weekday(n + 1) == (Weekday(n) + 1) % 7
  {
  }

  /** Day numbers and dates are in the same order: larger numbers are later dates. */
  lemma {:induction false} DateOfIncreasing(n: int, m: int)
    requires n < m
    ensures Before(DateOf(n), DateOf(m))
    decreases m - n
  {
    DateOfSucc(m - 1);
    NextDayIsSuccessor(DateOf(m - 1), DateOf(m - 1));
    if n < m - 1 {
      DateOfIncreasing(n, m - 1);
      BeforeTransitive(DateOf(n), DateOf(m - 1), DateOf(m));
    }
  }
}
