# Angular month calendar: a Dafny model

The application shows one month at a time as a grid of day cells. It can show
the month in the Gregorian calendar or in the Jalali (Persian solar) calendar.
Three pieces make it up:

- **Two calendar services.** `GregorianCalendarService` and `JalaliCalendarService`
  each hold a current date and a list of day cells.
  - They build the grid in two steps. First come `(weekday of day 1 + 1) % 7` padding
    cells, which line day 1 up under the Saturday-first week tables. Then comes one
    cell per day of the month, and the cell for today is marked.
  - They write the header's month and year labels. The Jalali service writes numbers
    with Persian digits.
- **A factory.** It maps a calendar tag (`"gregorian"`, `"jalali"`) to a new service
  of that kind. Any other tag makes it throw "Invalid calendar type".
- **The calendar component.** It holds the selected type, the service, the displayed
  date and the header and grid derived from that date. Four events change this state:
  initialisation, a change of calendar type, next month and previous month.

The date library (`moment`, `moment-jalaali`) is abstracted:

- Each calendar system is an `Almanac` of three answers: the date of a clock reading,
  the length of a month, and the week day of a date.
- `WellFormed` states the bounds that are relied on. A Gregorian month has 28 to 31
  days, a Jalali month 29 to 31, and every clock reading names a real day.
- `WeekdaysConsistent` states that week days advance by one from day to day.
- A date object is the class `Dates.Moment`, which `add` updates in place.
  - The component and its service share that one object.
  - The component's `Valid()` requires them to be the same object.

The clock is a parameter `now` of each event. The services' `calendarDays` lists and
`currentDate` fields are class fields that the methods reassign. The fill loops are
`while` loops proved against the grid functions of `CalendarGrid`.

The declared `CalendarServiceInterface` (in `calendar.component.types.ts`) lists only
`getTest()`. The model's interface is `ServiceFactory.Service` instead: a choice of one
of the two service classes, exposing the members the component really calls.

## Model

| member | source | states |
|---|---|---|
| CalendarGrid.LeadingBlanks | src/app/services/gregorianCalendarService.ts:41 | the padding count lies in 0..6, and the column it leads to is headed by day 1's own week day |
| CalendarGrid.BlanksShape | src/app/services/gregorianCalendarService.ts:74-78 | n padding cells are exactly n cells, each `{date: 0, isToday: false}`, none dated and none today |
| CalendarGrid.DaysFromShape | src/app/services/gregorianCalendarService.ts:56-72 | the day cells run from the first day to the last in order, one per day with no gap, each marked today exactly when it is today |
| CalendarGrid.DaysFromCounts | src/app/services/jalaliCalendarService.ts:66-82 | every day cell is dated; exactly one is marked today when today lies in the run, none otherwise |
| CalendarGrid.MonthGridShape | src/app/services/gregorianCalendarService.ts:35-47 | the grid is offset = (weekday of day 1 + 1) % 7 blanks, then cell i holds day i - offset + 1 up to the month's length; its length is offset + days in month; a day cell is marked exactly when that day is today |
| CalendarGrid.MonthGridCounts | src/app/services/jalaliCalendarService.ts:42-54 | the number of dated cells equals the month's length; one cell is marked today when the month shown is today's month and none otherwise, and that cell is the one holding today's day |
| CalendarGrid.MonthGridColumns | src/app/services/jalaliCalendarService.ts:48 | every day cell at position i falls in the column whose heading is that day's own week day (Saturday-first columns) |
| CalendarGrid.WeekTablesStartOnSaturday | src/app/calendar/calendar.component.helpers.ts:16-34 | both week tables have seven headings that start on Saturday; the English one follows the library's week-day order from Saturday on |
| Dates.AddMonths | src/app/calendar/calendar.component.ts:89 | `add(k, 'month')` at day granularity: a month 1..12 exactly k months on, never later in the month than the start; Dates.AddMonthsStep adds that it is a real day and keeps the day whenever it exists |
| Dates.AddMonthsStep | src/app/calendar/calendar.component.ts:88-97 | moving k months lands on a real day exactly k months away; it keeps the day of the month unless that day is missing from the month reached, and then it lands earlier |
| Dates.MonthStepRoundTrip | src/app/calendar/calendar.component.ts:88-97 | one month forward then back returns to the same month and year; it returns to the very same day iff that day exists in the next month |
| Dates.Moment.Add | src/app/calendar/calendar.component.ts:89 | the date object itself is moved by k months and returned |
| Numerals.IntToStringRoundTrip | src/app/services/gregorianCalendarService.ts:52 | the decimal text of an integer reads back as the same integer |
| GregorianCalendar.GregorianCalendarService.constructor | src/app/services/gregorianCalendarService.ts:19-21 | a new service has no current date and no cells yet and works in the library's Gregorian calendar |
| GregorianCalendar.GregorianCalendarService.InitializeDate | src/app/services/gregorianCalendarService.ts:23-25 | the current date becomes a new date object for today, and that same object is returned |
| GregorianCalendar.GregorianCalendarService.GetStartOfMonth | src/app/services/gregorianCalendarService.ts:27-29 | a real day: the current date's month and year with day 1 |
| GregorianCalendar.GregorianCalendarService.GetEndOfMonth | src/app/services/gregorianCalendarService.ts:31-33 | a real day: the current date's month and year, with the day equal to the month's length (28..31) |
| GregorianCalendar.GregorianCalendarService.GenerateCalendarDays | src/app/services/gregorianCalendarService.ts:35-47 | the stored list is replaced by the month grid of the current date, with today's cell marked, and that same list is returned |
| GregorianCalendar.GregorianCalendarService.GetCurrentMonthAndYear | src/app/services/gregorianCalendarService.ts:49-54 | the year label is decimal text that reads back as the date's year; CurrentMonthAndYearLabels adds that the month label is the English month name |
| GregorianCalendar.GregorianCalendarService.CurrentMonthAndYearLabels | src/app/services/gregorianCalendarService.ts:49-54 | the month label is the English month name; the year label is decimal text that reads back as the year |
| GregorianCalendar.GregorianCalendarService.FillDaysOfMonth | src/app/services/gregorianCalendarService.ts:56-72 | the cells already stored are kept, followed by one cell per day from the first to the last, each marked iff it is today |
| GregorianCalendar.GregorianCalendarService.FillEmptyDays | src/app/services/gregorianCalendarService.ts:74-78 | the cells already stored are kept, followed by `count` padding cells |
| JalaliCalendar.LatinToPersianNumber | src/app/services/jalaliCalendarService.ts:56-57 | the text of the value with its length kept; ReplaceDigitsPointwise and PersianNumberRoundTrip state which characters change and that a number reads back |
| JalaliCalendar.ReplaceDigits | src/app/services/jalaliCalendarService.ts:56-57 | transliteration keeps the length |
| JalaliCalendar.ReplaceDigitsPointwise | src/app/services/jalaliCalendarService.ts:56-57 | position by position, an ASCII digit d becomes the Persian glyph of value d, every other character is kept, and no ASCII digit remains |
| JalaliCalendar.ReplaceDigitsRoundTrip | src/app/services/jalaliCalendarService.ts:56-57 | text without Persian digits is recovered exactly by reading the Persian digits back |
| JalaliCalendar.ReplaceDigitsIdempotent | src/app/services/jalaliCalendarService.ts:56-57 | applying the transliteration twice gives the same text as applying it once |
| JalaliCalendar.PersianNumberRoundTrip | src/app/services/jalaliCalendarService.ts:56-57 | a number written in Persian digits has no ASCII digit and reads back as the same number |
| JalaliCalendar.PersianDigitExamples | src/app/services/jalaliCalendarService.ts:56-57 | 123 becomes "۱۲۳" and "456" becomes "۴۵۶" |
| JalaliCalendar.PersianYearExample | src/app/services/jalaliCalendarService.ts:62 | the Jalali year 1402 is written "۱۴۰۲" |
| JalaliCalendar.MehrExample | src/app/services/jalaliCalendarService.ts:59-64 | the first of Mehr 1402 is headed "مهر" and "۱۴۰۲" |
| JalaliCalendar.JalaliCalendarService.constructor | src/app/services/jalaliCalendarService.ts:22-25 | a new service has no current date and no cells yet and works in the library's Jalali calendar |
| JalaliCalendar.JalaliCalendarService.InitializeDate | src/app/services/jalaliCalendarService.ts:30-32 | the current date becomes a new date object for today, and that same object is returned |
| JalaliCalendar.JalaliCalendarService.GetStartOfMonth | src/app/services/jalaliCalendarService.ts:34-36 | a real day: the current date's Jalali month and year with day 1 |
| JalaliCalendar.JalaliCalendarService.GetEndOfMonth | src/app/services/jalaliCalendarService.ts:38-40 | a real day: the current date's Jalali month and year, with the day equal to the month's length (29..31) |
| JalaliCalendar.JalaliCalendarService.GenerateCalendarDays | src/app/services/jalaliCalendarService.ts:42-54 | the stored list is replaced by the Jalali month grid of the current date, with today's cell marked, and that same list is returned |
| JalaliCalendar.JalaliCalendarService.GetCurrentMonthAndYear | src/app/services/jalaliCalendarService.ts:59-64 | the year label, read back from Persian digits, is the date's Jalali year; CurrentMonthAndYearLabels adds the month's translation and that no ASCII digit is left |
| JalaliCalendar.JalaliCalendarService.CurrentMonthAndYearLabels | src/app/services/jalaliCalendarService.ts:59-64 | the library's month name is a key of the translation table and the month label is its Persian name; the year label has no ASCII digit and reads back as the Jalali year |
| JalaliCalendar.JalaliCalendarService.FillDaysOfMonth | src/app/services/jalaliCalendarService.ts:66-82 | the cells already stored are kept, followed by one cell per Jalali day from the first to the last, each marked iff it is today |
| JalaliCalendar.JalaliCalendarService.FillEmptyDays | src/app/services/jalaliCalendarService.ts:84-88 | the cells already stored are kept, followed by `count` padding cells |
| ServiceFactory.ParseCalendarType | src/app/calendar/calendar.component.types.ts:1-4 | a tag names the calendar type t exactly when it is t's tag |
| ServiceFactory.TagRoundTrip | src/app/calendar/calendar.component.types.ts:1-4 | every calendar type's tag is read back as that type |
| ServiceFactory.InitializeService | src/app/services/calendarServiceFactory.ts:17-29 | success exactly for the two known tags, with a fresh service of the named kind in the matching library calendar and with no date and no cells; any other tag fails with "Invalid calendar type" |
| Calendar.NavigationRoundTrip | src/app/calendar/calendar.component.ts:88-97 | one month forward then one back shows the same header and the same grid, even when the day of the month was cut back on the way |
| Calendar.CalendarComponent.constructor | src/app/calendar/calendar.component.ts:67-79 | the selected type starts as Gregorian, with no service, no date, empty labels and no cells |
| Calendar.CalendarComponent.NgOnInit | src/app/calendar/calendar.component.ts:48-52 | it completes iff the selected tag is known. Then there is a fresh service of that kind and a fresh date object for today, shared with the service, and the header and grid show today's month. On the factory's error nothing changes |
| Calendar.CalendarComponent.GoToPreviousMonth | src/app/calendar/calendar.component.ts:88-91 | the date object moves back exactly one month; type and service stay; header and grid show the new month |
| Calendar.CalendarComponent.GoToNextMonth | src/app/calendar/calendar.component.ts:94-97 | the date object moves forward exactly one month; type and service stay; header and grid show the new month |
| Calendar.CalendarComponent.OnCalendarTypeChange | src/app/calendar/calendar.component.ts:100-105 | the new tag is recorded either way. It completes iff the tag is known, with a fresh service of that kind, today's date and header and grid of today's month. On the factory's error nothing else changes |
| Calendar.CalendarComponent.ShowToday | src/app/calendar/calendar.component.ts:103-104 | with a service in place, the date becomes a fresh object for today, and header and grid show its month |
| Calendar.CalendarComponent.UpdateCalendarService | src/app/calendar/calendar.component.ts:108-111 | the service is replaced by the factory's fresh one iff the tag is known; otherwise it is kept and the factory's error passed on |
| Calendar.CalendarComponent.UpdateCurrentDate | src/app/calendar/calendar.component.ts:133-137 | with a service, the date becomes the service's new object for today, shared with it; without one the date is unchanged |
| Calendar.CalendarComponent.UpdateCalendarDaysAndHeaders | src/app/calendar/calendar.component.ts:140-143 | with a service, header and grid both show the month of the same current date; without one nothing changes |
| Calendar.CalendarComponent.UpdateCurrentMonthAndYear | src/app/calendar/calendar.component.ts:147-158 | with a service, the labels are the service's header for the current date; without one they are unchanged |
| Calendar.CalendarComponent.GenerateCalendarDays | src/app/calendar/calendar.component.ts:161-168 | with a service, the cells are the grid the service builds for its own current date, and the service keeps the same list; without one they are unchanged |
| Calendar.CalendarComponent.GetLocalizedDayText | src/app/calendar/calendar.component.ts:120-124 | with a Jalali service, the day as Persian-digit text that reads back as the day; otherwise the number unchanged |
| Calendar.CalendarComponent.WeekDays | src/app/calendar/calendar.component.ts:177-179 | the service's seven headings, Saturday first, or none without a service |

## Left out

- Angular wiring is not modelled: decorators, dependency injection, the template, Material modules and CSS.
- The clock is read once per event and passed in as `now`. The source reads it separately in `initializeDate` and in each `generateCalendarDays`, so a call that spans midnight is not modelled.
- The date library's internals are not modelled: calendar conversion, month lengths, week days, `startOf`/`endOf` and locale month names. They are the `Almanac` answers constrained by `WellFormed` and `WeekdaysConsistent`.
- Dates.AddMonths: `add(±1, 'month')` is modelled as a step of one month in the date object's own calendar, with the day cut back to the month's length. On a `moment-jalaali` object the unit `'month'` may step a Gregorian month; that library behaviour is not part of this model.
- CalendarGrid.MonthGridColumns: holds only for a library whose week days satisfy `WeekdaysConsistent`; that is assumed of `moment`, not proved.
- Calendar.CalendarComponent.GetLocalizedDayText: models whole-number days only. The source's `?.` on a null or undefined argument and non-integer numbers are not modelled.
- The component's getters are not modelled as members. `formattedCurrentYear` returns the component's own `currentYear` field. `calendarDirection`, `previousIcon`, `nextIcon`, `previousText` and `nextText` return the service's constant of that name, which the model keeps as class constants. Those five read the service without `?.`, so before any service exists they throw a TypeError; that failure is not modelled (the `weekDays` getter, which returns `[]` in that case, is).
- The component's dropdown list `calendarTypes` is not part of this model. The helpers file has no `calendarTypes` export for it to import.
- Both services' `generateCalendarDays` ignore the date the component passes. The model's version takes no date and uses the service's own current date, which the component shares.
- Before `generateCalendarDays` runs, a service's `calendarDays` is undefined; the model starts it empty.
- `src/app/calender/calender.component.ts` (a dead dropdown), `src/app/app.component.ts` (bootstrap) and the `*.spec.ts` test files are not part of this model.
