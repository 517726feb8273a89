/** The pickup-date and pickup-hour rules of the customer booking form:
    which days the date picker offers, which holiday list it consults, and
    which hours of the chosen day it greys out. */
module BookingForm {
  import opened JsArray
  import opened LocalTime

  /** One entry of the availability list the form receives: an hour of the
      day and its display text. */
  datatype TimeSlot = TimeSlot(hour: int, time: string)

  /** Earliest and latest pickup day, in days from the current instant. */
  const MinLeadDays: int := 5
  const MaxLeadDays: int := 30

  /** The picker's time range (`minTime` 9:00, `maxTime` 17:00) and the
      number of hours the exclusion list is drawn from. */
  const FirstPickerHour: int := 9
  const LastPickerHour: int := 17
  const PickerHourCount: nat := 9

  // ---------------------------------------------------------------------
  // Holidays

  /** The built-in holidays: 3, 4 and 5 May 2023 (month index 4 is May),
      each the instant at which that local day begins. */
  function BuiltInHolidays(z: Zone): (hs: seq<Instant>)
    ensures |hs| == 3
  {
    [ z.startOf(CivilDate(2023, 4, 3)),
      z.startOf(CivilDate(2023, 4, 4)),
      z.startOf(CivilDate(2023, 4, 5)) ]
  }

  /** The holiday list the form starts with, before the built-in list is loaded. */
  const InitialHolidays: seq<Instant> := []

  /** `isHoliday`: some holiday falls on the same local day of the month,
      month and full year as `date`. */
  function IsHoliday(z: Zone, holidays: seq<Instant>, date: Instant): (r: bool)
    ensures r <==> exists i :: 0 <= i < |holidays| && z.dateOf(holidays[i]) == z.dateOf(date)
  {
    Some(holidays, (h: Instant) =>
      z.dateOf(h).day == z.dateOf(date).day &&
      z.dateOf(h).month == z.dateOf(date).month &&
      z.dateOf(h).year == z.dateOf(date).year)
  }

  /** The local days the holiday list covers. */
  function HolidayDates(z: Zone, holidays: seq<Instant>): set<CivilDate>
  {
    set i | 0 <= i < |holidays| :: z.dateOf(holidays[i])
  }

  /** Only the local day matters: two instants on the same day are both
      holidays or both not. */
  lemma HolidayIgnoresTimeOfDay(z: Zone, holidays: seq<Instant>, d1: Instant, d2: Instant)
    requires z.dateOf(d1) == z.dateOf(d2)
    ensures IsHoliday(z, holidays, d1) == IsHoliday(z, holidays, d2)
  {
  }

  /** With the initial, empty list no date is a holiday. */
  lemma NoHolidaysInitially(z: Zone, date: Instant)
    ensures !IsHoliday(z, InitialHolidays, date)
  {
  }

  /** A date is a holiday exactly when its local day is one of the
      holiday list's days. */
  lemma IsHolidayMeansListedDay(z: Zone, holidays: seq<Instant>, date: Instant)
    ensures IsHoliday(z, holidays, date) <==> z.dateOf(date) in HolidayDates(z, holidays)
  {
    if z.dateOf(date) in HolidayDates(z, holidays) {
      var i :| 0 <= i < |holidays| && z.dateOf(holidays[i]) == z.dateOf(date);
    }
  }

  /** With the built-in list, the holidays are exactly 3, 4 and 5 May 2023. */
  lemma BuiltInHolidaysAreEarlyMay2023(z: Zone, date: Instant)
    requires Coherent(z)
    ensures IsHoliday(z, BuiltInHolidays(z), date) <==>
      z.dateOf(date) in {CivilDate(2023, 4, 3), CivilDate(2023, 4, 4), CivilDate(2023, 4, 5)}
  {
    var hs := BuiltInHolidays(z);
    assert ValidCivilDate(CivilDate(2023, 4, 3));
    assert ValidCivilDate(CivilDate(2023, 4, 4));
    assert ValidCivilDate(CivilDate(2023, 4, 5));
    assert z.dateOf(hs[0]) == CivilDate(2023, 4, 3);
    assert z.dateOf(hs[1]) == CivilDate(2023, 4, 4);
    assert z.dateOf(hs[2]) == CivilDate(2023, 4, 5);
  }

  // ---------------------------------------------------------------------
  // Selectable pickup dates

  /** `filterAvailableDates`: the picker offers `date` when it lies between
      five and thirty days from `now`, both ends included, and is neither a
      weekend day nor a holiday. */
  predicate FilterAvailableDates(z: Zone, holidays: seq<Instant>, now: Instant, date: Instant)
  {
    && date >= AddDays(now, MinLeadDays)
    && date <= AddDays(now, MaxLeadDays)
    && !IsWeekend(z, date)
    && !IsHoliday(z, holidays, date)
  }

  /** An accepted date lies in the inclusive window
      [now + 5 days, now + 30 days]. */
  lemma AcceptedDateInWindow(z: Zone, holidays: seq<Instant>, now: Instant, date: Instant)
    requires FilterAvailableDates(z, holidays, now, date)
    ensures now + 5 * MillisPerDay <= date <= now + 30 * MillisPerDay
  {
  }

  /** Both ends of the window are themselves selectable, when they fall on
      a working day that is not a holiday. */
  lemma WindowEndsAreInclusive(z: Zone, holidays: seq<Instant>, now: Instant, date: Instant)
    requires date == now + 5 * MillisPerDay || date == now + 30 * MillisPerDay
    requires !IsWeekend(z, date) && !IsHoliday(z, holidays, date)
    ensures FilterAvailableDates(z, holidays, now, date)
  {
  }

  /** Saturdays and Sundays are refused, inside the window too. */
  lemma WeekendsRejected(z: Zone, holidays: seq<Instant>, now: Instant, date: Instant)
    requires z.weekdayOf(date) == 0 || z.weekdayOf(date) == 6
    ensures !FilterAvailableDates(z, holidays, now, date)
  {
  }

  /** A listed holiday is refused, inside the window and on a weekday too. */
  lemma HolidaysRejected(z: Zone, holidays: seq<Instant>, now: Instant, date: Instant, i: int)
    requires 0 <= i < |holidays| && z.dateOf(holidays[i]) == z.dateOf(date)
    ensures !FilterAvailableDates(z, holidays, now, date)
  {
  }

  /** Two days from now is too soon and forty days from now too far. */
  lemma TooSoonAndTooFarRejected(z: Zone, holidays: seq<Instant>, now: Instant)
    ensures !FilterAvailableDates(z, holidays, now, now + 2 * MillisPerDay)
    ensures !FilterAvailableDates(z, holidays, now, now + 40 * MillisPerDay)
  {
  }

  /** The picker's rule stated independently of the form's code: the
      offset from `now` is between 5 and 30 whole days inclusive, the local
      weekday is Monday to Friday, and the local day is not one of the
      holiday list's days. Every date meeting all of these is accepted, and
      only those. */
  lemma FilterAvailableDatesExactly(z: Zone, holidays: seq<Instant>, now: Instant, date: Instant)
    requires Coherent(z)
    ensures FilterAvailableDates(z, holidays, now, date) <==>
      && 5 * MillisPerDay <= date - now <= 30 * MillisPerDay
      && 1 <= z.weekdayOf(date) <= 5
      && z.dateOf(date) !in HolidayDates(z, holidays)
  {
    NotWeekendIsMondayToFriday(z, date);
    IsHolidayMeansListedDay(z, holidays, date);
  }

  // ---------------------------------------------------------------------
  // Excluded pickup hours

  /** Some entry of the availability list is for `hour`
      (`availableTimeSlots.some(slot => slot.hour === hour)`). */
  predicate Offered(slots: seq<TimeSlot>, hour: int)
    ensures Offered(slots, hour) <==> exists s :: s in slots && s.hour == hour
  {
    var r := Some(slots, (slot: TimeSlot) => slot.hour == hour);
    assert forall i :: 0 <= i < |slots| ==> slots[i] in slots;
    r
  }

  /** The filter condition of `excludeTimes`: no entry offers the hour. */
  function NotOffered(slots: seq<TimeSlot>): int -> bool
  {
    (hour: int) => !Offered(slots, hour)
  }

  /** The hours the exclusion list is drawn from: every hour of the
      picker's 9:00 to 17:00 range, each once, in ascending order. */
  function PickerHours(): (hours: seq<int>)
    ensures forall h :: h in hours <==> FirstPickerHour <= h <= LastPickerHour
    ensures StrictlyAscending(hours)
  {
    var hours := From(PickerHourCount, (i: nat) => i + FirstPickerHour);
    assert forall h | FirstPickerHour <= h <= LastPickerHour :: h in hours by {
      forall h | FirstPickerHour <= h <= LastPickerHour ensures h in hours {
        assert hours[h - FirstPickerHour] == h;
      }
    }
    hours
  }

  /** What filtering the picker hours by `NotOffered` leaves: exactly the
      unoffered hours from 9 to 17, ascending. */
  lemma FilteredPickerHours(slots: seq<TimeSlot>)
    ensures var r := Filter(PickerHours(), NotOffered(slots));
      && (forall h :: h in r <==> FirstPickerHour <= h <= LastPickerHour && !Offered(slots, h))
      && StrictlyAscending(r)
  {
    var hours := PickerHours();
    var p := NotOffered(slots);
    var r := Filter(hours, p);
    FilterKeepsAscending(hours, p);
    forall h | h in r ensures FirstPickerHour <= h <= LastPickerHour && !Offered(slots, h) {
      var k :| 0 <= k < |r| && r[k] == h;
      assert h in hours && p(h);
    }
    forall h | FirstPickerHour <= h <= LastPickerHour && !Offered(slots, h) ensures h in r {
      assert h in hours;
      var j :| 0 <= j < |hours| && hours[j] == h;
      assert p(hours[j]);
    }
  }

  /** The `excludeTimes` expression, as hours of the day: with an empty
      availability list nothing is excluded; otherwise every hour from 9 to
      17 that no entry offers is excluded, and no other. The hours come out
      strictly ascending, at most nine of them, all within the picker's
      9:00 to 17:00 range. */
  function ExcludeTimes(slots: seq<TimeSlot>): (r: seq<int>)
    ensures slots == [] ==> r == []
    ensures slots != [] ==> forall h :: h in r <==>
      (FirstPickerHour <= h <= LastPickerHour && forall s :: s in slots ==> s.hour != h)
    ensures StrictlyAscending(r)
    ensures |r| <= PickerHourCount
    ensures forall i :: 0 <= i < |r| ==> FirstPickerHour <= r[i] <= LastPickerHour
  {
    if |slots| > 0 then
      FilteredPickerHours(slots);
      var r := Filter(PickerHours(), NotOffered(slots));
      assert forall i :: 0 <= i < |r| ==> r[i] in r;
      r
    else
      []
  }

  /** When every hour from 9 to 17 is offered, no hour is excluded. */
  lemma AllHoursOfferedExcludesNothing(slots: seq<TimeSlot>)
    requires forall h :: FirstPickerHour <= h <= LastPickerHour ==> Offered(slots, h)
    ensures ExcludeTimes(slots) == []
  {
  }

  /** A non-empty list that offers none of the hours 9 to 17 excludes all
      nine of them, in order. */
  lemma NoPickerHourOfferedExcludesAll(slots: seq<TimeSlot>)
    requires slots != []
    requires forall s :: s in slots ==> s.hour < FirstPickerHour || s.hour > LastPickerHour
    ensures ExcludeTimes(slots) == PickerHours()
  {
    var hours := PickerHours();
    forall i | 0 <= i < |hours| ensures NotOffered(slots)(hours[i]) {
      assert hours[i] in hours;
    }
    FilterKeepsAll(hours, NotOffered(slots));
  }
}
