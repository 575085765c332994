/**
 * components/custom/DatePicker.tsx: a calendar with a day, a month and a
 * year (decade) view. The arrows step by a month, a year or ten years
 * depending on the view; the header cycles the views.
 */
module DatePicker {

  datatype View = DayView | MonthView | YearView

  /** A calendar date as `new Date(year, month, day)` keeps it: month 0..11, day from 1. */
  datatype CalendarDate = CalendarDate(year: int, month: int, day: int)

  /** What the arrows act on: the view, the shown month and year, and the first year of the decade. */
  datatype Cursor = Cursor(view: View, month: int, year: int, rangeStart: int)

  /** The header click (lines 78-80): day, month, year, then day again. */
  function NextView(v: View): (r: View)
    ensures r != v
    ensures v == YearView <==> r == DayView
  {
    match v
    case DayView => MonthView
    case MonthView => YearView
    case YearView => DayView
  }

  /** Three header clicks bring back the view they started from. */
  lemma ViewCycle(v: View)
    ensures NextView(NextView(NextView(v))) == v
    ensures NextView(NextView(v)) != v
  {
  }

  /** `new Date(y, …)` reads a year 0..99 as 1900 + y. */
  function FullYear(year: int): (r: int)
    ensures 0 <= year <= 99 ==> r == year + 1900
    ensures !(0 <= year <= 99) ==> r == year
  {
    if 0 <= year <= 99 then 1900 + year else year
  }

  /** The Gregorian leap-year rule; divisibility does not depend on the sign. */
  predicate IsLeap(y: int)
  {
    y % 4 == 0 && (y % 100 != 0 || y % 400 == 0)
  }

  /**
   * daysInMonth (lines 19-20): day 0 of the next month is the last day of
   * this one, on the year as `new Date` reads it.
   */
  function DaysInMonth(month: int, year: int): (r: int)
    requires 0 <= month <= 11
    ensures 28 <= r <= 31
    ensures month == 1 ==> (r == 29 <==> IsLeap(FullYear(year)))
    ensures month != 1 ==> (r == 30 <==> month in {3, 5, 8, 10})
  {
    if month == 1 then (if IsLeap(FullYear(year)) then 29 else 28)
    else if month in {3, 5, 8, 10} then 30
    else 31
  }

  /** The twelve months of a year. */
  function DaysUpTo(n: nat, year: int): (r: int)
    requires n <= 12
  {
    if n == 0 then 0 else DaysUpTo(n - 1, year) + DaysInMonth(n - 1, year)
  }

  /** The months add up to a Gregorian year: 366 days in a leap year, else 365. */
  lemma YearLength(year: int)
    ensures DaysUpTo(12, year) == if IsLeap(FullYear(year)) then 366 else 365
  {
    var feb := DaysInMonth(1, year);
    assert DaysUpTo(1, year) == 31;
    assert DaysUpTo(2, year) == 31 + feb;
    assert DaysUpTo(3, year) == 62 + feb;
    assert DaysUpTo(4, year) == 92 + feb;
    assert DaysUpTo(5, year) == 123 + feb;
    assert DaysUpTo(6, year) == 153 + feb;
    assert DaysUpTo(7, year) == 184 + feb;
    assert DaysUpTo(8, year) == 215 + feb;
    assert DaysUpTo(9, year) == 245 + feb;
    assert DaysUpTo(10, year) == 276 + feb;
    assert DaysUpTo(11, year) == 306 + feb;
  }

  /** The day buttons (lines 104-105): 1 up to the number of days in the month. */
  function DaysOffered(month: int, year: int): (r: seq<int>)
    requires 0 <= month <= 11
    ensures |r| == DaysInMonth(month, year)
    ensures forall i :: 0 <= i < |r| ==> r[i] == i + 1
  {
    seq(DaysInMonth(month, year), i => i + 1)
  }

  /** A day is offered exactly when it lies in 1..daysInMonth, and never twice. */
  lemma DaysOfferedExactly(month: int, year: int, day: int)
    requires 0 <= month <= 11
    ensures day in DaysOffered(month, year) <==> 1 <= day <= DaysInMonth(month, year)
    ensures forall i, j :: 0 <= i < j < |DaysOffered(month, year)| ==> DaysOffered(month, year)[i] < DaysOffered(month, year)[j]
  {
    if 1 <= day <= DaysInMonth(month, year) {
      assert DaysOffered(month, year)[day - 1] == day;
    }
  }

  /** The year buttons (lines 134-138): the ten years from the decade's start. */
  function YearsOffered(rangeStart: int): (r: seq<int>)
    ensures |r| == 10
    ensures forall i :: 0 <= i < 10 ==> r[i] == rangeStart + i
  {
    seq(10, i => rangeStart + i)
  }

  /** The initial decade (lines 15-17): Math.floor(year / 10) * 10. */
  function DecadeStart(year: int): (r: int)
    ensures r % 10 == 0
    ensures r <= year < r + 10
  {
    (year / 10) * 10
  }

  /** The year a picker opens on is one of the year buttons of its first decade. */
  lemma OpeningYearOffered(year: int)
    ensures year in YearsOffered(DecadeStart(year))
  {
    var s := DecadeStart(year);
    assert YearsOffered(s)[year - s] == year;
  }

  /** The month index counted from year 0, January. */
  function MonthIndex(c: Cursor): int
  {
    12 * c.year + c.month
  }

  /**
   * handlePrevRange (lines 39-48): ten years back in year view, one year
   * back in month view, one month back in day view.
   */
  function PrevRange(c: Cursor): (r: Cursor)
    ensures r.view == c.view
    ensures c.view == YearView ==> r == c.(rangeStart := c.rangeStart - 10)
    ensures c.view == MonthView ==> r == c.(year := c.year - 1)
    ensures c.view == DayView && 0 <= c.month <= 11 ==>
              0 <= r.month <= 11 && MonthIndex(r) == MonthIndex(c) - 1 && r.rangeStart == c.rangeStart
  {
    match c.view
    case YearView => c.(rangeStart := c.rangeStart - 10)
    case MonthView => c.(year := c.year - 1)
    case DayView =>
      c.(month := if c.month == 0 then 11 else c.month - 1,
         year := if c.month == 0 then c.year - 1 else c.year)
  }

  /**
   * handleNextRange (lines 50-59): ten years on in year view, one year on
   * in month view, one month on in day view.
   */
  function NextRange(c: Cursor): (r: Cursor)
    ensures r.view == c.view
    ensures c.view == YearView ==> r == c.(rangeStart := c.rangeStart + 10)
    ensures c.view == MonthView ==> r == c.(year := c.year + 1)
    ensures c.view == DayView && 0 <= c.month <= 11 ==>
              0 <= r.month <= 11 && MonthIndex(r) == MonthIndex(c) + 1 && r.rangeStart == c.rangeStart
  {
    match c.view
    case YearView => c.(rangeStart := c.rangeStart + 10)
    case MonthView => c.(year := c.year + 1)
    case DayView =>
      c.(month := if c.month == 11 then 0 else c.month + 1,
         year := if c.month == 11 then c.year + 1 else c.year)
  }

  /** A month index in range determines the month and the year. */
  lemma MonthIndexInjective(a: Cursor, b: Cursor)
    requires 0 <= a.month <= 11 && 0 <= b.month <= 11
    requires MonthIndex(a) == MonthIndex(b)
    ensures a.month == b.month && a.year == b.year
  {
  }

  /** In every view, a step back followed by a step forward, or the other way round, restores the cursor. */
  lemma PrevNextInverse(c: Cursor)
    requires 0 <= c.month <= 11
    ensures NextRange(PrevRange(c)) == c
    ensures PrevRange(NextRange(c)) == c
  {
    if c.view == DayView {
      MonthIndexInjective(NextRange(PrevRange(c)), c);
      MonthIndexInjective(PrevRange(NextRange(c)), c);
    }
  }

  /** The edges of the year in day view: January steps back to December, December on to January. */
  lemma YearEdges(c: Cursor)
    requires c.view == DayView
    ensures c.month == 0 ==> PrevRange(c).month == 11 && PrevRange(c).year == c.year - 1
    ensures c.month == 11 ==> NextRange(c).month == 0 && NextRange(c).year == c.year + 1
  {
  }

  class Picker {
    var view: View
    var selected: CalendarDate
    var currentYear: int
    var currentMonth: int
    var yearRangeStart: int
    var reported: seq<CalendarDate>

    /** The shown month is always one of the twelve. */
    predicate Valid()
      reads this
    {
      0 <= currentMonth <= 11
    }

    function CursorOf(): Cursor
      reads this
    {
      Cursor(view, currentMonth, currentYear, yearRangeStart)
    }

    /** The initial state (lines 11-17), opened on `today`. */
    constructor (today: CalendarDate)
      requires 0 <= today.month <= 11
      ensures Valid()
      ensures view == DayView && selected == today && reported == []
      ensures currentYear == today.year && currentMonth == today.month
      ensures yearRangeStart == DecadeStart(today.year)
    {
      view := DayView;
      selected := today;
      currentYear := today.year;
      currentMonth := today.month;
      yearRangeStart := (today.year / 10) * 10;
      reported := [];
    }

    /**
     * handleDayClick (lines 22-27): select and report the date once, on the
     * year as `new Date` reads it, and stay in day view.
     */
    method DayClick(day: int)
      requires Valid() && 1 <= day <= DaysInMonth(currentMonth, currentYear)
      modifies this`selected, this`reported, this`view
      ensures selected == CalendarDate(FullYear(currentYear), currentMonth, day)
      ensures reported == old(reported) + [selected]
      ensures view == DayView
    {
      var date := CalendarDate(FullYear(currentYear), currentMonth, day);
      selected := date;
      reported := reported + [date];
      view := DayView;
    }

    /** handleMonthClick (lines 29-32): show that month's days. */
    method MonthClick(month: int)
      requires 0 <= month <= 11
      modifies this`currentMonth, this`view
      ensures Valid() && currentMonth == month && view == DayView
    {
      currentMonth := month;
      view := DayView;
    }

    /** handleYearClick (lines 34-37): show that year's months. */
    method YearClick(year: int)
      modifies this`currentYear, this`view
      ensures currentYear == year && view == MonthView
    {
      currentYear := year;
      view := MonthView;
    }

    /** The left arrow (lines 39-48). */
    method HandlePrevRange()
      requires Valid()
      modifies this`yearRangeStart, this`currentYear, this`currentMonth
      ensures Valid()
      ensures CursorOf() == PrevRange(old(CursorOf()))
    {
      if view == YearView {
        yearRangeStart := yearRangeStart - 10;
      } else if view == MonthView {
        currentYear := currentYear - 1;
      } else {
        var month := currentMonth;
        currentMonth := if month == 0 then 11 else month - 1;
        if month == 0 {
          currentYear := currentYear - 1;
        }
      }
    }

    /** The right arrow (lines 50-59). */
    method HandleNextRange()
      requires Valid()
      modifies this`yearRangeStart, this`currentYear, this`currentMonth
      ensures Valid()
      ensures CursorOf() == NextRange(old(CursorOf()))
    {
      if view == YearView {
        yearRangeStart := yearRangeStart + 10;
      } else if view == MonthView {
        currentYear := currentYear + 1;
      } else {
        var month := currentMonth;
        currentMonth := if month == 11 then 0 else month + 1;
        if month == 11 {
          currentYear := currentYear + 1;
        }
      }
    }

    /** The header click (lines 78-80). */
    method HeaderClick()
      modifies this`view
      ensures view == NextView(old(view))
    {
      view := if view == DayView then MonthView else if view == MonthView then YearView else DayView;
    }
  }
}
