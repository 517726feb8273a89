/** JavaScript `Date` values as the booking form uses them: an instant is
    the number of milliseconds since the epoch (what `valueOf` and the `<=`
    and `>=` operators compare), and the browser's local time zone is an
    input, a `Zone`, that maps instants to local calendar fields and back. */
module LocalTime {

  type Instant = int

  const MillisPerDay: int := 86_400_000

  /** date-fns `addDays(t, n)`, with every day 24 hours long. */
  function AddDays(t: Instant, n: int): (r: Instant)
    ensures r - t == n * MillisPerDay
  {
    t + n * MillisPerDay
  }

  /** The local calendar fields of an instant: `getFullYear()`,
      `getMonth()` (zero-based, 4 is May) and `getDate()`. */
  datatype CivilDate = CivilDate(year: int, month: int, day: int)

  predicate IsLeapYear(year: int)
  {
    year % 4 == 0 && (year % 100 != 0 || year % 400 == 0)
  }

  function DaysInMonth(year: int, month: int): (n: int)
    requires 0 <= month < 12
    ensures 28 <= n <= 31
  {
    if month == 1 then (if IsLeapYear(year) then 29 else 28)
    else if month == 3 || month == 5 || month == 8 || month == 10 then 30
    else 31
  }

  predicate ValidCivilDate(c: CivilDate)
  {
    0 <= c.month < 12 && 1 <= c.day <= DaysInMonth(c.year, c.month)
  }

  /** The local time zone: `dateOf` gives the calendar fields of an instant,
      `weekdayOf` gives `getDay()` (0 is Sunday, 6 is Saturday), and
      `startOf` is the constructor `new Date(year, month, day)`, the instant
      at which that local day begins. */
  datatype Zone = Zone(
    dateOf: Instant -> CivilDate,
    weekdayOf: Instant -> int,
    startOf: CivilDate -> Instant)

  /** Years `new Date(year, month, day)` keeps as given: years 0 to 99
      are read as 1900 to 1999, and a `Date` ends near year 275 760. */
  predicate ConstructibleYear(year: int)
  {
    100 <= year <= 275_759
  }

  /** What the proofs assume of the zone: a weekday is one of seven, and
      for a valid date in a constructible year the day the date begins on
      is that date. */
  ghost predicate Coherent(z: Zone)
  {
    && (forall t :: 0 <= z.weekdayOf(t) < 7)
    && (forall c :: ValidCivilDate(c) && ConstructibleYear(c.year) ==> z.dateOf(z.startOf(c)) == c)
  }

  /** date-fns `isWeekend`: Saturday or Sunday in local time. */
  predicate IsWeekend(z: Zone, t: Instant)
  {
    z.weekdayOf(t) == 0 || z.weekdayOf(t) == 6
  }

  /** In a coherent zone the days that are not weekend days are exactly
      Monday (1) to Friday (5). */
  lemma NotWeekendIsMondayToFriday(z: Zone, t: Instant)
    requires Coherent(z)
    ensures !IsWeekend(z, t) <==> 1 <= z.weekdayOf(t) <= 5
  {
    assert 0 <= z.weekdayOf(t) < 7;
  }
}
