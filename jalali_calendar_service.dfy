/**
 * The Jalali calendar service: dates, header labels and the month grid in the
 * Jalali calendar, and the Persian digits it writes numbers with.
 */
module JalaliCalendar {
  import opened CalendarTypes
  import opened CalendarHelpers
  import opened CalendarGrid
  import opened Dates
  import opened Numerals

  /** The Persian digit glyphs, zero to nine. */
  const PersianDigits: string := "۰۱۲۳۴۵۶۷۸۹"

  predicate IsPersianDigit(c: char)
  {
    '۰' <= c <= '۹'
  }

  /** A digit becomes the Persian glyph of the same value; any other character stays. */
  function PersianDigitOf(c: char): char
  {
    if IsDigit(c) then PersianDigits[DigitValue(c)] else c
  }

  /** `replace(/\d/g, d => '۰۱۲۳۴۵۶۷۸۹'[Number(d)])`: every ASCII digit replaced, left to right. */
  function ReplaceDigits(s: string): (r: string)
    ensures |r| == |s|
  {
    if s == [] then [] else [PersianDigitOf(s[0])] + ReplaceDigits(s[1..])
  }

  /**
   * Position by position, an ASCII digit becomes the Persian glyph of the same
   * value, every other character is kept, and no ASCII digit is left.
   */
  lemma {:induction false} ReplaceDigitsPointwise(s: string)
    ensures var r := ReplaceDigits(s);
      && (forall i :: 0 <= i < |s| && IsDigit(s[i]) ==>
            IsPersianDigit(r[i]) && r[i] as int - '۰' as int == DigitValue(s[i]))
      && (forall i :: 0 <= i < |s| && !IsDigit(s[i]) ==> r[i] == s[i])
      && (forall i :: 0 <= i < |r| ==> !IsDigit(r[i]))
  {
    if s != [] {
      ReplaceDigitsPointwise(s[1..]);
      var r := ReplaceDigits(s);
      assert r[1..] == ReplaceDigits(s[1..]);
    }
  }

  /** `latinToPersianNumber`: the text of a number or string with Persian digits. */
  function LatinToPersianNumber(x: NumOrText): (r: string)
    ensures |r| == |ToText(x)|
  {
    ReplaceDigits(ToText(x))
  }

  /** The inverse reading: Persian digits back to ASCII digits. */
  function PersianToLatin(s: string): (r: string)
    ensures |r| == |s|
  {
    if s == [] then []
    else [if IsPersianDigit(s[0]) then DigitChar(s[0] as int - '۰' as int) else s[0]] + PersianToLatin(s[1..])
  }

  /** Text without Persian digits is recovered exactly from its transliteration. */
  lemma {:induction false} ReplaceDigitsRoundTrip(s: string)
    requires forall i :: 0 <= i < |s| ==> !IsPersianDigit(s[i])
    ensures PersianToLatin(ReplaceDigits(s)) == s
  {
    if s != [] {
      ReplaceDigitsRoundTrip(s[1..]);
      var r := ReplaceDigits(s);
      assert r[1..] == ReplaceDigits(s[1..]);
    }
  }

  /** Transliterating twice changes nothing more: no ASCII digit is left after the first pass. */
  lemma {:induction false} ReplaceDigitsIdempotent(s: string)
    ensures ReplaceDigits(ReplaceDigits(s)) == ReplaceDigits(s)
  {
    var r := ReplaceDigits(s);
    ReplaceDigitsPointwise(s);
    if r != [] {
      assert r[1..] == ReplaceDigits(s[1..]);
      ReplaceDigitsIdempotent(s[1..]);
    }
  }

  /** Decimal text holds only ASCII digits and a minus sign, so it has no Persian digit. */
  lemma DecimalHasNoPersianDigit(s: string)
    requires IsDecimal(s)
    ensures forall i :: 0 <= i < |s| ==> !IsPersianDigit(s[i])
  {
    forall i | 0 <= i < |s|
      ensures !IsPersianDigit(s[i])
    {
      if i > 0 || s[0] != '-' {
        if s[0] == '-' {
          assert s[i] == s[1..][i - 1];
        }
      }
    }
  }

  /** A number in Persian digits reads back as the same number, and no ASCII digit remains. */
  lemma PersianNumberRoundTrip(n: int)
    ensures var t := LatinToPersianNumber(Num(n));
      && (forall i :: 0 <= i < |t| ==> !IsDigit(t[i]))
      && IsDecimal(PersianToLatin(t)) && ParseInt(PersianToLatin(t)) == n
  {
    IntToStringRoundTrip(n);
    ReplaceDigitsPointwise(IntToString(n));
    DecimalHasNoPersianDigit(IntToString(n));
    ReplaceDigitsRoundTrip(IntToString(n));
  }

  /** The examples the service promises: 123 and "456" in Persian digits. */
  lemma PersianDigitExamples()
    ensures LatinToPersianNumber(Num(123)) == "۱۲۳"
    ensures LatinToPersianNumber(Text("456")) == "۴۵۶"
  {
    assert IntToString(123) == "123";
  }

  class JalaliCalendarService {
    /** The date library's Jalali calendar (`moment-jalaali`). */
    const almanac: Almanac
    const jalaliMonthTranslations: map<string, string> := JalaliMonthTranslations
    const weekDays: seq<string> := JalaliWeekDays
    const calendarDirection: string := "rtl"
    const previousMonthIconName: string := "arrow_forward"
    const nextMonthIconName: string := "arrow_back"
    const previousMonthText: string := "ماه قبل"
    const nextMonthText: string := "ماه بعد"

    /** Unset (null) until `InitializeDate` runs. */
    var currentDate: Moment?
    var calendarDays: seq<CalendarDay>

    ghost predicate Valid()
      reads this`currentDate, MomentPart(currentDate)`year, MomentPart(currentDate)`month, MomentPart(currentDate)`day
    {
      && WellFormed(almanac, 29, 31)
      && (currentDate != null ==> currentDate.almanac == almanac && IsDate(almanac, currentDate.Value()))
    }

    constructor (almanac: Almanac)
      requires WellFormed(almanac, 29, 31)
      ensures Valid() && this.almanac == almanac
      ensures currentDate == null && calendarDays == []
    {
      this.almanac := almanac;
      currentDate := null;
      calendarDays := [];
    }

    /** Sets the current date to today (the Jalali day of clock reading `now`) and returns that date object. */
    method InitializeDate(now: int) returns (date: Moment)
      requires Valid()
      modifies this`currentDate
      ensures Valid() && fresh(date) && currentDate == date
      ensures date.almanac == almanac && date.Value() == almanac.dateOf(now)
    {
      date := new Moment(almanac, almanac.dateOf(now));
      currentDate := date;
    }

    /** A copy of the current date moved to the first day of its Jalali month. */
    function GetStartOfMonth(): (r: Date)
      requires Valid() && currentDate != null
      reads this`currentDate, MomentPart(currentDate)`year, MomentPart(currentDate)`month, MomentPart(currentDate)`day
      ensures r.year == currentDate.year && r.month == currentDate.month
      ensures r.day == 1 && r.day <= currentDate.day && IsDate(almanac, r)
    {
      StartOfMonth(currentDate.Value())
    }

    /** A copy of the current date moved to the last day of its Jalali month. */
    function GetEndOfMonth(): (r: Date)
      requires Valid() && currentDate != null
      reads this`currentDate, MomentPart(currentDate)`year, MomentPart(currentDate)`month, MomentPart(currentDate)`day
      ensures r.year == currentDate.year && r.month == currentDate.month
      ensures r.day == almanac.daysInMonth(r.year, r.month) && 29 <= r.day <= 31
      ensures currentDate.day <= r.day && IsDate(almanac, r)
    {
      EndOfMonth(almanac, currentDate.Value())
    }

    /**
     * Rebuilds `calendarDays` from nothing for the Jalali month of the current
     * date and returns it; `now` is the clock reading that decides today's cell.
     */
    method GenerateCalendarDays(now: int) returns (days: seq<CalendarDay>)
      requires Valid() && currentDate != null
      modifies this`calendarDays
      ensures Valid()
      ensures calendarDays == MonthGrid(almanac, currentDate.Value(), almanac.dateOf(now))
      ensures days == calendarDays
    {
      var startOfMonth := GetStartOfMonth();
      var endOfMonth := GetEndOfMonth();
      var today := almanac.dateOf(now);

      calendarDays := [];
      var startDayOffset := (almanac.weekday(startOfMonth) + 1) % 7;

      FillEmptyDays(startDayOffset);
      FillDaysOfMonth(startOfMonth, endOfMonth, today);

      days := calendarDays;
    }

    /**
     * The header labels for `date`: the Persian name of its Jalali month, found
     * through the translation table, and its Jalali year in Persian digits.
     */
    function GetCurrentMonthAndYear(date: Date): (r: MonthAndYear)
      requires 1 <= date.month <= 12
      ensures IsDecimal(PersianToLatin(r.year)) && ParseInt(PersianToLatin(r.year)) == date.year
    {
      PersianNumberRoundTrip(date.year);
      MonthAndYear(jalaliMonthTranslations[JalaliMonthNames[date.month - 1]], LatinToPersianNumber(Num(date.year)))
    }

    /**
     * The month label is the Persian name the translation table gives the
     * library's Jalali month name; the year label has only Persian digits and
     * reads back as the year.
     */
    lemma CurrentMonthAndYearLabels(date: Date)
      requires 1 <= date.month <= 12
      ensures JalaliMonthNames[date.month - 1] in jalaliMonthTranslations
      ensures var r := GetCurrentMonthAndYear(date);
        && r.month == jalaliMonthTranslations[JalaliMonthNames[date.month - 1]]
        && (forall i :: 0 <= i < |r.year| ==> !IsDigit(r.year[i]))
        && IsDecimal(PersianToLatin(r.year)) && ParseInt(PersianToLatin(r.year)) == date.year
    {
      PersianNumberRoundTrip(date.year);
    }

    /** Appends one cell per day from the start's Jalali day of the month to the end's. */
    method FillDaysOfMonth(startOfMonth: Date, endOfMonth: Date, today: Date)
      modifies this`calendarDays
      ensures calendarDays == old(calendarDays) + DaysFrom(startOfMonth, endOfMonth.day, today)
    {
      var day := startOfMonth.day;
      while day <= endOfMonth.day
        invariant startOfMonth.day <= day && (day == startOfMonth.day || day <= endOfMonth.day + 1)
        invariant calendarDays == old(calendarDays) + DaysFrom(startOfMonth, day - 1, today)
        decreases endOfMonth.day - day
      {
        var date := Date(startOfMonth.year, startOfMonth.month, day);
        var isToday := date == today;
        calendarDays := calendarDays + [CalendarDay(day, isToday)];
        day := day + 1;
      }
    }

    /** Appends `count` padding cells. */
    method FillEmptyDays(count: int)
      modifies this`calendarDays
      ensures calendarDays == old(calendarDays) + Blanks(count)
    {
      var i := 0;
      while i < count
        invariant 0 <= i && (i <= count || i == 0)
        invariant calendarDays == old(calendarDays) + Blanks(i)
      {
        calendarDays := calendarDays + [CalendarDay(0, false)];
        i := i + 1;
      }
    }
  }

  /** The service's example: the first of Mehr 1402 is headed "مهر" and "۱۴۰۲". */
  lemma MehrExample(service: JalaliCalendarService)
    ensures service.GetCurrentMonthAndYear(Date(1402, 7, 1)) == MonthAndYear("مهر", "۱۴۰۲")
  {
    PersianYearExample();
    assert JalaliMonthNames[6] == "Mehr";
  }

  /** The year 1402 in Persian digits. */
  lemma PersianYearExample()
    ensures LatinToPersianNumber(Num(1402)) == "۱۴۰۲"
  {
    assert IntToString(1402) == "1402";
  }
}
