/**
 * The month grid both services build: `(weekday of day 1 + 1) % 7` padding
 * cells, then one cell per day of the month with the day equal to today
 * marked. This is what their `generateCalendarDays` methods are proved to
 * produce, and the properties of the grid are proved here once.
 */
module CalendarGrid {
  import opened CalendarTypes
  import opened CalendarHelpers
  import opened Dates

  /** A padding cell. */
  const Blank := CalendarDay(0, false)

  /** The week day (Sunday = 0) whose heading the week tables show in column c: they start on Saturday. */
  function ColumnWeekday(c: int): int
  {
    (c + 6) % 7
  }

  /**
   * The padding before day 1. `Moment#day()` counts from Sunday = 0 and the
   * week tables start on Saturday, so day 1 goes in the column one further on.
   */
  function LeadingBlanks(weekdayOfFirst: int): (n: int)
    ensures 0 <= n < 7
    ensures 0 <= weekdayOfFirst < 7 ==> ColumnWeekday(n) == weekdayOfFirst
  {
    (weekdayOfFirst + 1) % 7
  }

  /** n padding cells (none when n is not positive). */
  function Blanks(n: int): seq<CalendarDay>
    decreases n
  {
    if n <= 0 then [] else Blanks(n - 1) + [Blank]
  }

  /** The cell for day k of start's month; it is today's cell when that day is today. */
  function DayCell(start: Date, k: int, today: Date): CalendarDay
  {
    CalendarDay(k, Date(start.year, start.month, k) == today)
  }

  /** One cell for each day from start's day of the month up to `last`. */
  function DaysFrom(start: Date, last: int, today: Date): seq<CalendarDay>
    decreases last - start.day
  {
    if last < start.day then [] else DaysFrom(start, last - 1, today) + [DayCell(start, last, today)]
  }

  /** The grid shown for the month of `anchor` when the clock reads `today`. */
  function MonthGrid(a: Almanac, anchor: Date, today: Date): seq<CalendarDay>
  {
    var start := StartOfMonth(anchor);
    Blanks(LeadingBlanks(a.weekday(start))) + DaysFrom(start, EndOfMonth(a, anchor).day, today)
  }

  /** The number of cells that carry a day of the month. */
  function DatedCount(s: seq<CalendarDay>): nat
  {
    if s == [] then 0 else DatedCount(s[..|s| - 1]) + (if s[|s| - 1].date > 0 then 1 else 0)
  }

  /** The number of cells marked as today. */
  function TodayCount(s: seq<CalendarDay>): nat
  {
    if s == [] then 0 else TodayCount(s[..|s| - 1]) + (if s[|s| - 1].isToday then 1 else 0)
  }

  lemma {:induction false} CountsAppend(s: seq<CalendarDay>, t: seq<CalendarDay>)
    ensures DatedCount(s + t) == DatedCount(s) + DatedCount(t)
    ensures TodayCount(s + t) == TodayCount(s) + TodayCount(t)
    decreases |t|
  {
    if t != [] {
      var u := t[..|t| - 1];
      assert (s + t)[..|s + t| - 1] == s + u;
      CountsAppend(s, u);
    } else {
      assert s + t == s;
    }
  }

  /** `Blanks(n)` is n padding cells, none dated and none today. */
  lemma {:induction false} BlanksShape(n: int)
    ensures |Blanks(n)| == if n <= 0 then 0 else n
    ensures forall i :: 0 <= i < |Blanks(n)| ==> Blanks(n)[i] == Blank
    ensures DatedCount(Blanks(n)) == 0 && TodayCount(Blanks(n)) == 0
    decreases n
  {
    if n > 0 {
      BlanksShape(n - 1);
      CountsAppend(Blanks(n - 1), [Blank]);
    }
  }

  /** `DaysFrom` holds the days start.day, start.day + 1, ..., last in order, with no gap. */
  lemma {:induction false} DaysFromShape(start: Date, last: int, today: Date)
    ensures |DaysFrom(start, last, today)| == if last < start.day then 0 else last - start.day + 1
    ensures forall i :: 0 <= i < |DaysFrom(start, last, today)| ==>
      DaysFrom(start, last, today)[i] == DayCell(start, start.day + i, today)
    decreases last - start.day
  {
    if last >= start.day {
      DaysFromShape(start, last - 1, today);
    }
  }

  /**
   * Every cell of `DaysFrom` is dated when the run starts at day 1 or later,
   * and the one cell marked today is today's day, if today lies in the run.
   */
  lemma {:induction false} DaysFromCounts(start: Date, last: int, today: Date)
    requires 1 <= start.day
    ensures DatedCount(DaysFrom(start, last, today)) == if last < start.day then 0 else last - start.day + 1
    ensures TodayCount(DaysFrom(start, last, today)) ==
      if today.year == start.year && today.month == start.month && start.day <= today.day <= last then 1 else 0
    decreases last - start.day
  {
    if last >= start.day {
      DaysFromCounts(start, last - 1, today);
      CountsAppend(DaysFrom(start, last - 1, today), [DayCell(start, last, today)]);
    }
  }

  /**
   * The grid is 0..6 padding cells, then the days 1..n of the month in order,
   * where n is the month's length; a day cell is marked exactly when it is today.
   */
  lemma MonthGridShape(a: Almanac, shortest: int, longest: int, anchor: Date, today: Date)
    requires WellFormed(a, shortest, longest) && 1 <= anchor.month <= 12
    ensures var g := MonthGrid(a, anchor, today);
      var offset := LeadingBlanks(a.weekday(StartOfMonth(anchor)));
      var n := a.daysInMonth(anchor.year, anchor.month);
      && offset == (a.weekday(StartOfMonth(anchor)) + 1) % 7 && 0 <= offset <= 6
      && |g| == offset + n
      && (forall i :: 0 <= i < offset ==> g[i] == Blank)
      && (forall i :: offset <= i < |g| ==> g[i].date == i - offset + 1)
      && (forall i :: offset <= i < |g| ==>
            (g[i].isToday <==> Date(anchor.year, anchor.month, g[i].date) == today))
  {
    var start := StartOfMonth(anchor);
    var offset := LeadingBlanks(a.weekday(start));
    var n := a.daysInMonth(anchor.year, anchor.month);
    var blanks, days := Blanks(offset), DaysFrom(start, n, today);
    BlanksShape(offset);
    DaysFromShape(start, n, today);
    var g := MonthGrid(a, anchor, today);
    assert g == blanks + days;
    assert |blanks| == offset && |days| == n;
    forall i | 0 <= i < offset
      ensures g[i] == Blank
    {
      assert g[i] == blanks[i];
    }
    forall i | offset <= i < |g|
      ensures g[i] == DayCell(start, i - offset + 1, today)
    {
      assert g[i] == days[i - offset];
    }
  }

  /**
   * The grid has exactly as many dated cells as the month has days, and one
   * cell marked today when today falls in the displayed month, none otherwise;
   * today's cell is the one holding today's day of the month.
   */
  lemma MonthGridCounts(a: Almanac, shortest: int, longest: int, anchor: Date, today: Date)
    requires WellFormed(a, shortest, longest) && 1 <= anchor.month <= 12 && IsDate(a, today)
    ensures var g := MonthGrid(a, anchor, today);
      var offset := LeadingBlanks(a.weekday(StartOfMonth(anchor)));
      var shown := today.year == anchor.year && today.month == anchor.month;
      && |g| == offset + a.daysInMonth(anchor.year, anchor.month)
      && DatedCount(g) == a.daysInMonth(anchor.year, anchor.month)
      && TodayCount(g) == (if shown then 1 else 0)
      && (shown ==> g[offset + today.day - 1] == CalendarDay(today.day, true))
  {
    var start := StartOfMonth(anchor);
    var offset := LeadingBlanks(a.weekday(start));
    var n := a.daysInMonth(anchor.year, anchor.month);
    var blanks, days := Blanks(offset), DaysFrom(start, n, today);
    BlanksShape(offset);
    DaysFromShape(start, n, today);
    DaysFromCounts(start, n, today);
    CountsAppend(blanks, days);
    var g := MonthGrid(a, anchor, today);
    assert g == blanks + days;
    assert |blanks| == offset && |days| == n;
    if today.year == anchor.year && today.month == anchor.month {
      assert g[offset + today.day - 1] == days[today.day - 1];
    }
  }

  /** Week day arithmetic behind the column alignment. */
  lemma ColumnArithmetic(w: int, k: int)
    requires 0 <= w < 7 && 1 <= k
    ensures (w + k - 1) % 7 == ColumnWeekday((LeadingBlanks(w) + k - 1) % 7)
  {
    var x := w + k - 1;
    assert x == 7 * (x / 7) + x % 7;
    var y := LeadingBlanks(w) + k - 1;
    assert y == 7 * (y / 7) + y % 7;
    if w == 6 {
      assert y == x - 6;
    } else {
      assert y == x + 1;
    }
  }

  /**
   * Every day cell sits in the column headed by its own week day: the cell at
   * position i shows a day whose week day is `ColumnWeekday(i % 7)`.
   */
  lemma MonthGridColumns(a: Almanac, shortest: int, longest: int, anchor: Date, today: Date)
    requires WellFormed(a, shortest, longest) && WeekdaysConsistent(a) && 1 <= anchor.month <= 12
    ensures var g := MonthGrid(a, anchor, today);
      forall i :: LeadingBlanks(a.weekday(StartOfMonth(anchor))) <= i < |g| ==>
        a.weekday(Date(anchor.year, anchor.month, g[i].date)) == ColumnWeekday(i % 7)
  {
    var g := MonthGrid(a, anchor, today);
    var w := a.weekday(StartOfMonth(anchor));
    MonthGridShape(a, shortest, longest, anchor, today);
    forall i | LeadingBlanks(w) <= i < |g|
      ensures a.weekday(Date(anchor.year, anchor.month, g[i].date)) == ColumnWeekday(i % 7)
    {
      var k := i - LeadingBlanks(w) + 1;
      assert g[i].date == k;
      ColumnArithmetic(w, k);
    }
  }

  /** Both week tables have seven headings and start on Saturday, the order `ColumnWeekday` assumes. */
  lemma WeekTablesStartOnSaturday()
    ensures |GregorianWeekDays| == 7 && |JalaliWeekDays| == 7
    ensures forall c :: 0 <= c < 7 ==> GregorianWeekDays[c] == WeekdayNames[ColumnWeekday(c)]
    ensures JalaliWeekDays[0] == "شنبه" && ColumnWeekday(0) == 6
  {
  }
}
