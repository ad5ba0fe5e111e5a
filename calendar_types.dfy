/** The enumeration and the records shared by the component and the services. */
module CalendarTypes {

  /** The calendar systems the factory knows. */
  datatype CalendarType = Gregorian | Jalali

  /** The string value each enumeration member carries at run time. */
  function TagOf(t: CalendarType): string
  {
    match t
    case Gregorian => "gregorian"
    case Jalali => "jalali"
  }

  /** One cell of the month grid: `date` 0 marks a padding cell. */
  datatype CalendarDay = CalendarDay(date: int, isToday: bool)

  /** The header labels `getCurrentMonthAndYear` returns. */
  datatype MonthAndYear = MonthAndYear(month: string, year: string)
}
