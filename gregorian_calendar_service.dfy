/** The Gregorian calendar service: dates, header labels and the month grid in the Gregorian calendar. */
module GregorianCalendar {
  import opened CalendarTypes
  import opened CalendarHelpers
  import opened CalendarGrid
  import opened Dates
  import opened Numerals

  class GregorianCalendarService {
    /** The date library's Gregorian calendar (`moment`). */
    const almanac: Almanac
    const weekDays: seq<string> := GregorianWeekDays
    const calendarDirection: string := "ltr"
    const previousMonthIconName: string := "arrow_back"
    const nextMonthIconName: string := "arrow_forward"
    const previousMonthText: string := "Previous"
    const nextMonthText: string := "Next"

    /** Unset (null) until `InitializeDate` runs. */
    var currentDate: Moment?
    var calendarDays: seq<CalendarDay>

    ghost predicate Valid()
      reads this`currentDate, MomentPart(currentDate)`year, MomentPart(currentDate)`month, MomentPart(currentDate)`day
    {
      && WellFormed(almanac, 28, 31)
      && (currentDate != null ==> currentDate.almanac == almanac && IsDate(almanac, currentDate.Value()))
    }

    constructor (almanac: Almanac)
      requires WellFormed(almanac, 28, 31)
      ensures Valid() && this.almanac == almanac
      ensures currentDate == null && calendarDays == []
    {
      this.almanac := almanac;
      currentDate := null;
      calendarDays := [];
    }

    /** Sets the current date to today (the day of clock reading `now`) and returns that date object. */
    method InitializeDate(now: int) returns (date: Moment)
      requires Valid()
      modifies this`currentDate
      ensures Valid() && fresh(date) && currentDate == date
      ensures date.almanac == almanac && date.Value() == almanac.dateOf(now)
    {
      date := new Moment(almanac, almanac.dateOf(now));
      currentDate := date;
    }

    /** A copy of the current date moved to the first day of its month. */
    function GetStartOfMonth(): (r: Date)
      requires Valid() && currentDate != null
      reads this`currentDate, MomentPart(currentDate)`year, MomentPart(currentDate)`month, MomentPart(currentDate)`day
      ensures r.year == currentDate.year && r.month == currentDate.month
      ensures r.day == 1 && r.day <= currentDate.day && IsDate(almanac, r)
    {
      StartOfMonth(currentDate.Value())
    }

    /** A copy of the current date moved to the last day of its month. */
    function GetEndOfMonth(): (r: Date)
      requires Valid() && currentDate != null
      reads this`currentDate, MomentPart(currentDate)`year, MomentPart(currentDate)`month, MomentPart(currentDate)`day
      ensures r.year == currentDate.year && r.month == currentDate.month
      ensures r.day == almanac.daysInMonth(r.year, r.month) && 28 <= r.day <= 31
      ensures currentDate.day <= r.day && IsDate(almanac, r)
    {
      EndOfMonth(almanac, currentDate.Value())
    }

    /**
     * Rebuilds `calendarDays` from nothing for the month of the current date
     * and returns it; `now` is the clock reading that decides today's cell.
     */
    method GenerateCalendarDays(now: int) returns (days: seq<CalendarDay>)
      requires Valid() && currentDate != null
      modifies this`calendarDays
      ensures Valid()
      ensures calendarDays == MonthGrid(almanac, currentDate.Value(), almanac.dateOf(now))
      ensures days == calendarDays
    {
      var startOfMonth := GetStartOfMonth();
      var endOfMonth := GetEndOfMonth();
      var today := almanac.dateOf(now);

      calendarDays := [];
      var startDayOffset := (almanac.weekday(startOfMonth) + 1) % 7;

      FillEmptyDays(startDayOffset);
      FillDaysOfMonth(startOfMonth, endOfMonth, today);

      days := calendarDays;
    }

    /** The header labels for `date`: the English month name and the year in decimal. */
    function GetCurrentMonthAndYear(date: Date): (r: MonthAndYear)
      requires 1 <= date.month <= 12
      ensures IsDecimal(r.year) && ParseInt(r.year) == date.year
    {
      IntToStringRoundTrip(date.year);
      MonthAndYear(GregorianMonthNames[date.month - 1], IntToString(date.year))
    }

    /** The month label is the library's English month name; the year label reads back as the year. */
    lemma CurrentMonthAndYearLabels(date: Date)
      requires 1 <= date.month <= 12
      ensures var r := GetCurrentMonthAndYear(date);
        r.month == GregorianMonthNames[date.month - 1] && IsDecimal(r.year) && ParseInt(r.year) == date.year
    {
      IntToStringRoundTrip(date.year);
    }

    /** Appends one cell per day from the start's day of the month to the end's. */
    method FillDaysOfMonth(startOfMonth: Date, endOfMonth: Date, today: Date)
      modifies this`calendarDays
      ensures calendarDays == old(calendarDays) + DaysFrom(startOfMonth, endOfMonth.day, today)
    {
      var day := startOfMonth.day;
      while day <= endOfMonth.day
        invariant startOfMonth.day <= day && (day == startOfMonth.day || day <= endOfMonth.day + 1)
        invariant calendarDays == old(calendarDays) + DaysFrom(startOfMonth, day - 1, today)
        decreases endOfMonth.day - day
      {
        var date := Date(startOfMonth.year, startOfMonth.month, day);
        var isToday := date == today;
        calendarDays := calendarDays + [CalendarDay(day, isToday)];
        day := day + 1;
      }
    }

    /** Appends `count` padding cells. */
    method FillEmptyDays(count: int)
      modifies this`calendarDays
      ensures calendarDays == old(calendarDays) + Blanks(count)
    {
      var i := 0;
      while i < count
        invariant 0 <= i && (i <= count || i == 0)
        invariant calendarDays == old(calendarDays) + Blanks(i)
      {
        calendarDays := calendarDays + [CalendarDay(0, false)];
        i := i + 1;
      }
    }
  }
}
