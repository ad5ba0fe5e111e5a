/**
 * The calendar component: the selected calendar type, the service for it, the
 * date on display and the header and grid derived from that date, changed by
 * four events (init, change of type, next month, previous month).
 */
module Calendar {
  import opened Failures
  import opened CalendarTypes
  import opened CalendarGrid
  import opened Dates
  import opened Numerals
  import opened GregorianCalendar
  import opened JalaliCalendar
  import opened ServiceFactory

  /** The grid a service shows for the month of `date` when the clock reads `now`. */
  function GridOf(s: Service, date: Date, now: int): seq<CalendarDay>
  {
    MonthGrid(AlmanacOf(s), date, AlmanacOf(s).dateOf(now))
  }

  /** The header and the grid a service shows for the month of `date` when the clock reads `now`. */
  function ViewOf(s: Service, date: Date, now: int): (MonthAndYear, seq<CalendarDay>)
    requires 1 <= date.month <= 12
  {
    (MonthAndYearOf(s, date), GridOf(s, date, now))
  }

  /**
   * Going one month forward and then one back shows the same header and the
   * same grid as before, even when the day of the month was cut back on the way.
   */
  lemma NavigationRoundTrip(s: Service, shortest: int, longest: int, date: Date, now: int)
    requires WellFormed(AlmanacOf(s), shortest, longest) && IsDate(AlmanacOf(s), date)
    ensures var a := AlmanacOf(s);
      var back := AddMonths(a, AddMonths(a, date, 1), -1);
      1 <= back.month <= 12 && ViewOf(s, back, now) == ViewOf(s, date, now)
  {
    var a := AlmanacOf(s);
    MonthStepRoundTrip(a, shortest, longest, date);
    var back := AddMonths(a, AddMonths(a, date, 1), -1);
    assert StartOfMonth(back) == StartOfMonth(date);
    assert EndOfMonth(a, back) == EndOfMonth(a, date);
  }

  class CalendarComponent {
    /** The date library behind the services the factory makes. */
    const dates: DateLibrary

    /** The raw calendar tag; Gregorian until the user picks another. */
    var selectedCalendarType: string
    var calendarService: Option<Service>
    /** The date on display; the same object as the service's current date. */
    var currentDate: Moment?
    var currentYear: string
    var currentMonth: string
    var calendarDays: seq<CalendarDay>

    constructor (dates: DateLibrary)
      requires Sound(dates)
      ensures this.dates == dates && selectedCalendarType == TagOf(Gregorian)
      ensures calendarService == None && currentDate == null
      ensures currentYear == "" && currentMonth == "" && calendarDays == []
    {
      this.dates := dates;
      selectedCalendarType := TagOf(Gregorian);
      calendarService := None;
      currentDate := null;
      currentYear := "";
      currentMonth := "";
      calendarDays := [];
    }

    /** The service object, when there is one of the Gregorian kind. */
    ghost function GregorianObjects(): set<GregorianCalendarService>
      reads this`calendarService
    {
      if calendarService.Some? then GregorianPart(calendarService.value) else {}
    }

    /** The service object, when there is one of the Jalali kind. */
    ghost function JalaliObjects(): set<JalaliCalendarService>
      reads this`calendarService
    {
      if calendarService.Some? then JalaliPart(calendarService.value) else {}
    }

    /**
     * The state every completed event leaves: a service over the library's
     * calendar of its kind, whose current date object is the component's own.
     */
    ghost predicate Valid()
      reads this`calendarService, this`currentDate, GregorianObjects()`currentDate, JalaliObjects()`currentDate
      reads MomentPart(currentDate)`year, MomentPart(currentDate)`month, MomentPart(currentDate)`day
    {
      && calendarService.Some?
      && currentDate != null
      && CurrentDateOf(calendarService.value) == currentDate
      && ServiceValid(calendarService.value)
      && AlmanacOf(calendarService.value) == AlmanacFor(dates, KindOf(calendarService.value))
      && currentDate.almanac == AlmanacOf(calendarService.value)
      && IsDate(AlmanacOf(calendarService.value), currentDate.Value())
    }

    /** Header and grid both show the month of the current date, with `now` deciding today's cell. */
    ghost predicate Shows(now: int)
      reads this`calendarService, this`currentDate
      reads MomentPart(currentDate)`year, MomentPart(currentDate)`month, MomentPart(currentDate)`day
      reads this`currentMonth, this`currentYear, this`calendarDays
      reads GregorianObjects()`calendarDays, JalaliObjects()`calendarDays
    {
      && calendarService.Some? && currentDate != null && 1 <= currentDate.month <= 12
      && MonthAndYear(currentMonth, currentYear) == MonthAndYearOf(calendarService.value, currentDate.Value())
      && calendarDays == GridOf(calendarService.value, currentDate.Value(), now)
      && CalendarDaysOf(calendarService.value) == calendarDays
    }

    /**
     * `ngOnInit`: gets a service for the selected type, sets the current date
     * to today and derives header and grid from it. The factory's error, for a
     * tag it does not know, leaves the component as it was.
     */
    method NgOnInit(now: int) returns (outcome: Outcome)
      requires Sound(dates)
      modifies this`calendarService, this`currentDate, this`currentMonth, this`currentYear, this`calendarDays
      ensures selectedCalendarType == old(selectedCalendarType)
      ensures outcome.Completed? <==> ParseCalendarType(selectedCalendarType).Some?
      ensures outcome.Completed? ==>
        && Valid() && Shows(now)
        && fresh(ObjectOf(calendarService.value)) && fresh(currentDate)
        && KindOf(calendarService.value) == ParseCalendarType(selectedCalendarType).value
        && currentDate.Value() == AlmanacOf(calendarService.value).dateOf(now)
      ensures outcome.Thrown? ==>
        && outcome.message == InvalidCalendarType
        && calendarService == old(calendarService) && currentDate == old(currentDate)
        && currentMonth == old(currentMonth) && currentYear == old(currentYear)
        && calendarDays == old(calendarDays)
    {
      outcome := UpdateCalendarService(selectedCalendarType);
      if outcome.Thrown? {
        return;
      }
      ShowToday(now);
    }

    /** Moves the current date back one month and rederives header and grid. */
    method GoToPreviousMonth(now: int)
      requires Valid()
      modifies this`currentDate, this`currentMonth, this`currentYear, this`calendarDays
      modifies MomentPart(currentDate)`year, MomentPart(currentDate)`month, MomentPart(currentDate)`day, GregorianObjects()`calendarDays, JalaliObjects()`calendarDays
      ensures Valid() && Shows(now)
      ensures selectedCalendarType == old(selectedCalendarType)
      ensures calendarService == old(calendarService) && currentDate == old(currentDate)
      ensures currentDate.Value() == AddMonths(AlmanacOf(calendarService.value), old(currentDate.Value()), -1)
    {
      StepKeepsDate(-1);
      currentDate := currentDate.Add(-1);
      UpdateCalendarDaysAndHeaders(now);
    }

    /** Moves the current date forward one month and rederives header and grid. */
    method GoToNextMonth(now: int)
      requires Valid()
      modifies this`currentDate, this`currentMonth, this`currentYear, this`calendarDays
      modifies MomentPart(currentDate)`year, MomentPart(currentDate)`month, MomentPart(currentDate)`day, GregorianObjects()`calendarDays, JalaliObjects()`calendarDays
      ensures Valid() && Shows(now)
      ensures selectedCalendarType == old(selectedCalendarType)
      ensures calendarService == old(calendarService) && currentDate == old(currentDate)
      ensures currentDate.Value() == AddMonths(AlmanacOf(calendarService.value), old(currentDate.Value()), 1)
    {
      StepKeepsDate(1);
      currentDate := currentDate.Add(1);
      UpdateCalendarDaysAndHeaders(now);
    }

    /**
     * `onCalendarTypeChange`: records the new type, replaces the service by a
     * new one of that type (nothing of the old one is kept), resets the current
     * date to today and derives header and grid. When the factory throws, the
     * new type is already recorded and nothing else has changed.
     */
    method OnCalendarTypeChange(value: string, now: int) returns (outcome: Outcome)
      requires Sound(dates)
      modifies this`selectedCalendarType, this`calendarService, this`currentDate
      modifies this`currentMonth, this`currentYear, this`calendarDays
      ensures selectedCalendarType == value
      ensures outcome.Completed? <==> ParseCalendarType(value).Some?
      ensures outcome.Completed? ==>
        && Valid() && Shows(now)
        && fresh(ObjectOf(calendarService.value)) && fresh(currentDate)
        && KindOf(calendarService.value) == ParseCalendarType(value).value
        && currentDate.Value() == AlmanacOf(calendarService.value).dateOf(now)
      ensures outcome.Thrown? ==>
        && outcome.message == InvalidCalendarType
        && calendarService == old(calendarService) && currentDate == old(currentDate)
        && currentMonth == old(currentMonth) && currentYear == old(currentYear)
        && calendarDays == old(calendarDays)
    {
      selectedCalendarType := value;
      outcome := UpdateCalendarService(value);
      if outcome.Thrown? {
        return;
      }
      ShowToday(now);
    }

    /**
     * What `ngOnInit` and `onCalendarTypeChange` both do once the new service
     * is in place: `updateCurrentDate`, then `updateCalendarDaysAndHeaders`.
     */
    method ShowToday(now: int)
      requires calendarService.Some?
      requires ServiceValid(calendarService.value)
      requires AlmanacOf(calendarService.value) == AlmanacFor(dates, KindOf(calendarService.value))
      modifies this`currentDate, this`currentMonth, this`currentYear, this`calendarDays
      modifies GregorianObjects()`currentDate, JalaliObjects()`currentDate
      modifies GregorianObjects()`calendarDays, JalaliObjects()`calendarDays
      ensures calendarService == old(calendarService) && selectedCalendarType == old(selectedCalendarType)
      ensures Valid() && Shows(now) && fresh(currentDate)
      ensures currentDate.Value() == AlmanacOf(calendarService.value).dateOf(now)
    {
      UpdateCurrentDate(now);
      UpdateCalendarDaysAndHeaders(now);
    }

    /** Replaces the service by the factory's new one for `tag`, or passes on the factory's error. */
    method UpdateCalendarService(tag: string) returns (outcome: Outcome)
      requires Sound(dates)
      modifies this`calendarService
      ensures selectedCalendarType == old(selectedCalendarType)
      ensures outcome.Completed? <==> ParseCalendarType(tag).Some?
      ensures outcome.Thrown? ==> outcome.message == InvalidCalendarType && calendarService == old(calendarService)
      ensures outcome.Completed? ==>
        && calendarService.Some?
        && fresh(ObjectOf(calendarService.value))
        && KindOf(calendarService.value) == ParseCalendarType(tag).value
        && AlmanacOf(calendarService.value) == AlmanacFor(dates, KindOf(calendarService.value))
        && CurrentDateOf(calendarService.value) == null
        && ServiceValid(calendarService.value)
    {
      var r := InitializeService(dates, tag);
      match r
      case Success(service) =>
        calendarService := Some(service);
        outcome := Completed;
      case Failure(error) =>
        outcome := Thrown(error);
    }

    /** With a service, sets the current date to the service's today, shared with the service. */
    method UpdateCurrentDate(now: int)
      requires calendarService.Some? ==>
        && ServiceValid(calendarService.value)
        && AlmanacOf(calendarService.value) == AlmanacFor(dates, KindOf(calendarService.value))
      modifies this`currentDate, GregorianObjects()`currentDate, JalaliObjects()`currentDate
      ensures calendarService == old(calendarService)
      ensures calendarService.None? ==> currentDate == old(currentDate)
      ensures calendarService.Some? ==>
        && Valid() && fresh(currentDate)
        && currentDate.Value() == AlmanacOf(calendarService.value).dateOf(now)
    {
      if calendarService.Some? {
        match calendarService.value
        case GregorianService(g) =>
          currentDate := g.InitializeDate(now);
        case JalaliService(j) =>
          currentDate := j.InitializeDate(now);
      }
    }

    /** Header and grid, both from the current date. */
    method UpdateCalendarDaysAndHeaders(now: int)
      requires calendarService.Some? ==> Valid()
      modifies this`currentMonth, this`currentYear, this`calendarDays, GregorianObjects()`calendarDays, JalaliObjects()`calendarDays
      ensures calendarService == old(calendarService) && currentDate == old(currentDate)
      ensures currentDate != null ==> currentDate.Value() == old(currentDate.Value())
      ensures calendarService.None? ==>
        currentMonth == old(currentMonth) && currentYear == old(currentYear) && calendarDays == old(calendarDays)
      ensures calendarService.Some? ==> Valid() && Shows(now)
    {
      UpdateCurrentMonthAndYear();
      GenerateCalendarDays(now);
    }

    /** With a service, the header labels of the current date. */
    method UpdateCurrentMonthAndYear()
      requires calendarService.Some? ==> currentDate != null && 1 <= currentDate.month <= 12
      modifies this`currentMonth, this`currentYear
      ensures calendarService.None? ==> currentMonth == old(currentMonth) && currentYear == old(currentYear)
      ensures calendarService.Some? ==>
        MonthAndYear(currentMonth, currentYear) == MonthAndYearOf(calendarService.value, currentDate.Value())
    {
      if calendarService.Some? {
        var header := MonthAndYearOf(calendarService.value, currentDate.Value());
        currentMonth := header.month;
        currentYear := header.year;
      }
    }

    /** With a service, the grid the service generates for its current date. */
    method GenerateCalendarDays(now: int)
      requires calendarService.Some? ==>
        ServiceValid(calendarService.value) && CurrentDateOf(calendarService.value) != null
      modifies this`calendarDays, GregorianObjects()`calendarDays, JalaliObjects()`calendarDays
      ensures calendarService == old(calendarService) && currentDate == old(currentDate)
      ensures currentMonth == old(currentMonth) && currentYear == old(currentYear)
      ensures currentDate != null ==> currentDate.Value() == old(currentDate.Value())
      ensures calendarService.None? ==> calendarDays == old(calendarDays)
      ensures calendarService.Some? ==>
        && CurrentDateOf(calendarService.value) == old(CurrentDateOf(calendarService.value))
        && ServiceValid(calendarService.value)
        && calendarDays == GridOf(calendarService.value, CurrentDateOf(calendarService.value).Value(), now)
        && CalendarDaysOf(calendarService.value) == calendarDays
    {
      if calendarService.Some? {
        match calendarService.value
        case GregorianService(g) =>
          calendarDays := g.GenerateCalendarDays(now);
        case JalaliService(j) =>
          calendarDays := j.GenerateCalendarDays(now);
      }
    }

    /** A step of k months from a valid state lands on a real day of the same calendar. */
    lemma StepKeepsDate(k: int)
      requires Valid()
      ensures IsDate(AlmanacOf(calendarService.value), AddMonths(AlmanacOf(calendarService.value), currentDate.Value(), k))
    {
      var a := AlmanacOf(calendarService.value);
      if calendarService.value.GregorianService? {
        AddMonthsStep(a, 28, 31, currentDate.Value(), k);
      } else {
        AddMonthsStep(a, 29, 31, currentDate.Value(), k);
      }
    }

    /**
     * `getLocalizedDayText`: a Jalali service writes the day in Persian digits;
     * otherwise, and before any service exists, the day number comes back as it is.
     */
    function GetLocalizedDayText(day: int): (r: NumOrText)
      reads this`calendarService
      ensures calendarService.Some? && calendarService.value.JalaliService? ==>
        && r.Text?
        && (forall i :: 0 <= i < |r.s| ==> !IsDigit(r.s[i]))
        && IsDecimal(PersianToLatin(r.s)) && ParseInt(PersianToLatin(r.s)) == day
      ensures !(calendarService.Some? && calendarService.value.JalaliService?) ==> r == Num(day)
    {
      if calendarService.Some? && calendarService.value.JalaliService? then
        PersianNumberRoundTrip(day);
        Text(LatinToPersianNumber(Num(day)))
      else
        Num(day)
    }

    /** The `weekDays` getter: the service's seven headings, Saturday first, or none without a service. */
    function WeekDays(): (r: seq<string>)
      reads this`calendarService
      ensures calendarService.None? ==> r == []
      ensures calendarService.Some? ==> |r| == 7 && r == WeekDaysOf(calendarService.value)
      ensures calendarService.Some? && calendarService.value.GregorianService? ==>
        forall c :: 0 <= c < 7 ==> r[c] == WeekdayNames[ColumnWeekday(c)]
    {
      WeekTablesStartOnSaturday();
      if calendarService.Some? then WeekDaysOf(calendarService.value) else []
    }
  }
}
