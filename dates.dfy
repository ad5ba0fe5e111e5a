/**
 * What the calendar services ask of their date library (`moment` for the
 * Gregorian calendar, `moment-jalaali` for the Jalali one). The library itself
 * is not modelled: each calendar system is an `Almanac` of three answers,
 * constrained by `WellFormed`, and a date object is a `Moment` whose fields the
 * library updates in place.
 */
module Dates {

  /** A day in one calendar system: year, month 1..12, day of the month. */
  datatype Date = Date(year: int, month: int, day: int)

  /**
   * The date library's answers for one calendar system:
   * `dateOf(t)`, the date of the day numbered t (a clock reading cut to the day);
   * `daysInMonth(y, m)`, the length of month m of year y;
   * `weekday(d)`, the day of the week of d with Sunday = 0 (`Moment#day()`).
   */
  datatype Almanac = Almanac(dateOf: int -> Date, daysInMonth: (int, int) -> int, weekday: Date -> int)

  /** The two calendar systems the library provides. */
  datatype DateLibrary = DateLibrary(gregorian: Almanac, jalali: Almanac)

  /** d names a day that exists in the calendar of `a`. */
  predicate IsDate(a: Almanac, d: Date)
  {
    1 <= d.month <= 12 && 1 <= d.day <= a.daysInMonth(d.year, d.month)
  }

  /**
   * The facts about a calendar the services rely on: every month has between
   * `shortest` and `longest` days, and every clock reading names a real day.
   */
  ghost predicate WellFormed(a: Almanac, shortest: int, longest: int)
  {
    && 1 <= shortest
    && (forall y: int, m: int :: 1 <= m <= 12 ==> shortest <= a.daysInMonth(y, m) <= longest)
    && (forall t: int :: IsDate(a, a.dateOf(t)))
  }

  /**
   * The facts about week days the column layout relies on: they run 0..6 and
   * advance by one from each day of a month to the next.
   */
  ghost predicate WeekdaysConsistent(a: Almanac)
  {
    && (forall d: Date :: 0 <= a.weekday(d) < 7)
    && (forall y: int, m: int, k: int :: 1 <= m <= 12 && 1 <= k <= a.daysInMonth(y, m) ==>
          a.weekday(Date(y, m, k)) == (a.weekday(Date(y, m, 1)) + k - 1) % 7)
  }

  /** Gregorian months have 28 to 31 days, Jalali months 29 to 31. */
  ghost predicate Sound(lib: DateLibrary)
  {
    WellFormed(lib.gregorian, 28, 31) && WellFormed(lib.jalali, 29, 31)
  }

  /** English month names, as the library's default locale formats `MMMM`. */
  const GregorianMonthNames: seq<string> := [
    "January", "February", "March", "April", "May", "June",
    "July", "August", "September", "October", "November", "December"
  ]

  /** Jalali month names, as the library's default locale formats `jMMMM`. */
  const JalaliMonthNames: seq<string> := [
    "Farvardin", "Ordibehesht", "Khordaad", "Tir", "Amordaad", "Shahrivar",
    "Mehr", "Aabaan", "Aazar", "Dey", "Bahman", "Esfand"
  ]

  /** English week-day names indexed by `Moment#day()` (Sunday = 0). */
  const WeekdayNames: seq<string> := [
    "Sunday", "Monday", "Tuesday", "Wednesday", "Thursday", "Friday", "Saturday"
  ]

  /** `clone().startOf('month')`: the first day of d's month. */
  function StartOfMonth(d: Date): Date
  {
    Date(d.year, d.month, 1)
  }

  /** `clone().endOf('month')` at day granularity: the last day of d's month. */
  function EndOfMonth(a: Almanac, d: Date): Date
  {
    Date(d.year, d.month, a.daysInMonth(d.year, d.month))
  }

  /** Months elapsed since the first month of year 0. */
  function MonthNumber(d: Date): int
  {
    d.year * 12 + (d.month - 1)
  }

  function Min(x: int, y: int): int
  {
    if x <= y then x else y
  }

  /**
   * `add(k, 'month')`: move k whole months and keep the day of the month,
   * cut back to the last day when the month reached is shorter.
   */
  function AddMonths(a: Almanac, d: Date, k: int): (r: Date)
    ensures 1 <= r.month <= 12 && MonthNumber(r) == MonthNumber(d) + k
    ensures r.day <= d.day
  {
    var n := MonthNumber(d) + k;
    var y := n / 12;
    var m := n % 12 + 1;
    assert y * 12 + (m - 1) == n;
    Date(y, m, Min(d.day, a.daysInMonth(y, m)))
  }

  /** Year and month are determined by the month number. */
  lemma MonthNumberDetermines(x: Date, y: Date)
    requires 1 <= x.month <= 12 && 1 <= y.month <= 12
    requires MonthNumber(x) == MonthNumber(y)
    ensures x.year == y.year && x.month == y.month
  {
  }

  /**
   * Stepping k months lands on a real day exactly k months away, never later
   * in the month than d, and on the same day unless that day does not exist
   * in the month reached.
   */
  lemma AddMonthsStep(a: Almanac, shortest: int, longest: int, d: Date, k: int)
    requires WellFormed(a, shortest, longest) && IsDate(a, d)
    ensures var r := AddMonths(a, d, k);
      && IsDate(a, r)
      && MonthNumber(r) == MonthNumber(d) + k
      && r.day <= d.day
      && (r.day == d.day <==> d.day <= a.daysInMonth(r.year, r.month))
  {
    var n := MonthNumber(d) + k;
    assert 1 <= n % 12 + 1 <= 12;
    assert (n / 12) * 12 + n % 12 == n;
  }

  /**
   * One month forward and one back returns to the same month and year; it
   * returns to the very same day exactly when that day exists in the next month.
   */
  lemma MonthStepRoundTrip(a: Almanac, shortest: int, longest: int, d: Date)
    requires WellFormed(a, shortest, longest) && IsDate(a, d)
    ensures var next := AddMonths(a, d, 1);
      var back := AddMonths(a, next, -1);
      && back.year == d.year && back.month == d.month
      && (back == d <==> d.day <= a.daysInMonth(next.year, next.month))
  {
    var next := AddMonths(a, d, 1);
    AddMonthsStep(a, shortest, longest, d, 1);
    var back := AddMonths(a, next, -1);
    AddMonthsStep(a, shortest, longest, next, -1);
    MonthNumberDetermines(back, d);
    assert back.day == next.day;
  }

  /** The date object, when there is one. */
  function MomentPart(m: Moment?): set<Moment>
  {
    if m == null then {} else {m}
  }

  /**
   * A date object of the library, updated in place by `add`. It keeps the
   * calendar it was made by, as `moment` and `moment-jalaali` objects do.
   */
  class Moment {
    const almanac: Almanac
    var year: int
    var month: int
    var day: int

    constructor (a: Almanac, d: Date)
      ensures almanac == a && Value() == d
    {
      almanac := a;
      year, month, day := d.year, d.month, d.day;
    }

    /** The day this object stands for. */
    function Value(): Date
      reads this`year, this`month, this`day
    {
      Date(year, month, day)
    }

    /** `add(k, 'month')`: moves this object and returns it. */
    method Add(k: int) returns (self: Moment)
      modifies this`year, this`month, this`day
      ensures self == this
      ensures Value() == AddMonths(almanac, old(Value()), k)
    {
      var r := AddMonths(almanac, Value(), k);
      year, month, day := r.year, r.month, r.day;
      self := this;
    }
  }
}
