/**
 * The calendar service interface and the factory that picks its implementation
 * from a calendar tag. The interface is the set of members the two services
 * really expose; a service is one of exactly two kinds.
 */
module ServiceFactory {
  import opened Failures
  import opened CalendarTypes
  import opened Dates
  import opened GregorianCalendar
  import opened JalaliCalendar

  /** A calendar service object of either kind. */
  datatype Service = GregorianService(gregorian: GregorianCalendarService) | JalaliService(jalali: JalaliCalendarService)

  /** The message of the factory's only error. */
  const InvalidCalendarType: string := "Invalid calendar type"

  function KindOf(s: Service): CalendarType
  {
    match s
    case GregorianService(_) => Gregorian
    case JalaliService(_) => Jalali
  }

  function ObjectOf(s: Service): object
  {
    match s
    case GregorianService(g) => g
    case JalaliService(j) => j
  }

  /** The service object, if it is a Gregorian one. */
  function GregorianPart(s: Service): set<GregorianCalendarService>
  {
    if s.GregorianService? then {s.gregorian} else {}
  }

  /** The service object, if it is a Jalali one. */
  function JalaliPart(s: Service): set<JalaliCalendarService>
  {
    if s.JalaliService? then {s.jalali} else {}
  }

  /** The date library calendar a service of kind t works in. */
  function AlmanacFor(lib: DateLibrary, t: CalendarType): Almanac
  {
    match t
    case Gregorian => lib.gregorian
    case Jalali => lib.jalali
  }

  function AlmanacOf(s: Service): Almanac
  {
    match s
    case GregorianService(g) => g.almanac
    case JalaliService(j) => j.almanac
  }

  function CurrentDateOf(s: Service): Moment?
    reads GregorianPart(s)`currentDate, JalaliPart(s)`currentDate
  {
    match s
    case GregorianService(g) => g.currentDate
    case JalaliService(j) => j.currentDate
  }

  function CalendarDaysOf(s: Service): seq<CalendarDay>
    reads GregorianPart(s)`calendarDays, JalaliPart(s)`calendarDays
  {
    match s
    case GregorianService(g) => g.calendarDays
    case JalaliService(j) => j.calendarDays
  }

  function WeekDaysOf(s: Service): seq<string>
  {
    match s
    case GregorianService(g) => g.weekDays
    case JalaliService(j) => j.weekDays
  }

  ghost predicate ServiceValid(s: Service)
    reads GregorianPart(s)`currentDate, JalaliPart(s)`currentDate
    reads MomentPart(CurrentDateOf(s))`year, MomentPart(CurrentDateOf(s))`month, MomentPart(CurrentDateOf(s))`day
  {
    match s
    case GregorianService(g) => g.Valid()
    case JalaliService(j) => j.Valid()
  }

  /** `getCurrentMonthAndYear` of the service. */
  function MonthAndYearOf(s: Service, date: Date): MonthAndYear
    requires 1 <= date.month <= 12
  {
    match s
    case GregorianService(g) => g.GetCurrentMonthAndYear(date)
    case JalaliService(j) => j.GetCurrentMonthAndYear(date)
  }

  /** The calendar type a tag names, if it names one. */
  function ParseCalendarType(tag: string): (r: Option<CalendarType>)
    ensures forall t :: r == Some(t) <==> tag == TagOf(t)
  {
    if tag == TagOf(Gregorian) then Some(Gregorian)
    else if tag == TagOf(Jalali) then Some(Jalali)
    else None
  }

  /** Every calendar type's tag is read back as that type. */
  lemma TagRoundTrip(t: CalendarType)
    ensures ParseCalendarType(TagOf(t)) == Some(t)
  {
  }

  /**
   * `initializeService`: a new service of the kind the tag names, or the error
   * "Invalid calendar type" for any other tag. The service is a fresh object,
   * so two calls never share a current date or a grid.
   */
  method InitializeService(lib: DateLibrary, tag: string) returns (r: Result<Service>)
    requires Sound(lib)
    ensures r.Success? <==> ParseCalendarType(tag).Some?
    ensures r.Failure? ==> r.error == InvalidCalendarType
    ensures r.Success? ==>
      && KindOf(r.value) == ParseCalendarType(tag).value
      && fresh(ObjectOf(r.value))
      && AlmanacOf(r.value) == AlmanacFor(lib, KindOf(r.value))
      && CurrentDateOf(r.value) == null && CalendarDaysOf(r.value) == []
      && ServiceValid(r.value)
  {
    if tag == TagOf(Gregorian) {
      var service := new GregorianCalendarService(lib.gregorian);
      r := Success(GregorianService(service));
    } else if tag == TagOf(Jalali) {
      var service := new JalaliCalendarService(lib.jalali);
      r := Success(JalaliService(service));
    } else {
      r := Failure(InvalidCalendarType);
    }
  }
}
