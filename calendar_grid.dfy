/** The month grid shared by both calendar screens: days are numbered from
    1970-01-01 in the browser's zone, a month is laid out in rows of seven
    starting on Sunday after as many blank cells as the weekday of its first
    day, and a day shows a dot when some event starts on it and it is not
    the selected day. */
module CalendarGrid {
  import opened Common
  import EventDetail

  /** The day number of an instant, in a zone `utcOffset` minutes ahead of
      UTC: what `isSameDay` compares. */
  function LocalDay(t: int, utcOffset: int): int {
    (t + utcOffset * EventDetail.MinuteMs) / EventDetail.DayMs
  }

  /** `getDay()`: 0 for Sunday. Day 0, 1970-01-01, was a Thursday. */
  function Weekday(d: int): (w: int)
    ensures 0 <= w < 7
  {
    (d + 4) % 7
  }

  /** A month of the Gregorian calendar, `month` from 1 to 12. */
  datatype Month = Month(year: int, month: int)

  predicate ValidMonth(m: Month) { 1 <= m.month <= 12 }

  predicate IsLeap(y: int) { y % 4 == 0 && (y % 100 != 0 || y % 400 == 0) }

  function DaysInMonth(m: Month): (n: int)
    requires ValidMonth(m)
    ensures 28 <= n <= 31
  {
    if m.month == 2 then (if IsLeap(m.year) then 29 else 28)
    else if m.month == 4 || m.month == 6 || m.month == 9 || m.month == 11 then 30
    else 31
  }

  /** The days of the year before the first of the month. */
  function DaysBefore(m: Month): int
    requires ValidMonth(m)
  {
    var leap := if IsLeap(m.year) then 1 else 0;
    match m.month
    case 1 => 0
    case 2 => 31
    case 3 => 59 + leap
    case 4 => 90 + leap
    case 5 => 120 + leap
    case 6 => 151 + leap
    case 7 => 181 + leap
    case 8 => 212 + leap
    case 9 => 243 + leap
    case 10 => 273 + leap
    case 11 => 304 + leap
    case _ => 334 + leap
  }

  /** Leap years from year 1 to `y`. */
  function LeapsThrough(y: int): int { y / 4 - y / 100 + y / 400 }

  lemma DivStep4(y: int)
    ensures y / 4 - (y - 1) / 4 == (if y % 4 == 0 then 1 else 0)
  {
  }

  lemma DivStep100(y: int)
    ensures y / 100 - (y - 1) / 100 == (if y % 100 == 0 then 1 else 0)
  {
  }

  lemma DivStep400(y: int)
    ensures y / 400 - (y - 1) / 400 == (if y % 400 == 0 then 1 else 0)
  {
  }

  /** The count of leap years grows by one exactly at a leap year. */
  lemma LeapStep(y: int)
    ensures LeapsThrough(y) - LeapsThrough(y - 1) == (if IsLeap(y) then 1 else 0)
  {
    DivStep4(y);
    DivStep100(y);
    DivStep400(y);
    if y % 400 == 0 {
      MultipleOf400(y);
    } else if y % 100 == 0 {
      MultipleOf100(y);
    }
  }

  lemma MultipleOf400(y: int)
    requires y % 400 == 0
    ensures y % 100 == 0 && y % 4 == 0
  {
    var k := 4 * (y / 400);
    assert y == 100 * k;
    MultipleOf100(y);
  }

  lemma MultipleOf100(y: int)
    requires y % 100 == 0
    ensures y % 4 == 0
  {
    var q := y / 100;
    assert y == 100 * q;
    assert y == 4 * (25 * q);
  }

  /** The day number of the first of the month (`startOfMonth`). */
  function FirstDay(m: Month): int
    requires ValidMonth(m)
  {
    365 * (m.year - 1970) + LeapsThrough(m.year - 1) - LeapsThrough(1969) + DaysBefore(m)
  }

  /** Anchors of the numbering: January 1970 starts on day 0, a Thursday;
      January 2024 on a Monday; March 2000, after a leap February of a
      year divisible by 400, on a Wednesday. */
  lemma KnownFirstDays()
    ensures FirstDay(Month(1970, 1)) == 0 && Weekday(0) == 4
    ensures FirstDay(Month(2024, 1)) == 19723 && LeadingBlanks(Month(2024, 1)) == 1
    ensures FirstDay(Month(2000, 3)) == 11017 && LeadingBlanks(Month(2000, 3)) == 3
  {
  }

  /** `addMonths(…, 1)` and `subMonths(…, 1)` on the displayed month. */
  function Next(m: Month): (r: Month)
    requires ValidMonth(m)
    ensures ValidMonth(r)
  {
    if m.month == 12 then Month(m.year + 1, 1) else Month(m.year, m.month + 1)
  }

  function Prev(m: Month): (r: Month)
    requires ValidMonth(m)
    ensures ValidMonth(r)
  {
    if m.month == 1 then Month(m.year - 1, 12) else Month(m.year, m.month - 1)
  }

  lemma PrevNext(m: Month)
    requires ValidMonth(m)
    ensures Prev(Next(m)) == m && Next(Prev(m)) == m
  {
  }

  /** The months tile the days: each month begins the day after the
      previous one ends, so the grid of one month and the next neither
      overlap nor leave a gap. */
  lemma NextMonthFollows(m: Month)
    requires ValidMonth(m)
    ensures FirstDay(Next(m)) == FirstDay(m) + DaysInMonth(m)
  {
    if m.month == 12 {
      LeapStep(m.year);
    }
  }

  /** The days of the month (`eachDayOfInterval`), in order. */
  function Days(m: Month): (ds: seq<int>)
    requires ValidMonth(m)
    ensures |ds| == DaysInMonth(m)
    ensures forall i :: 0 <= i < |ds| ==> ds[i] == FirstDay(m) + i
  {
    seq(DaysInMonth(m), i => FirstDay(m) + i)
  }

  /** The blank cells before the first day. */
  function LeadingBlanks(m: Month): (n: int)
    requires ValidMonth(m)
    ensures n == Weekday(FirstDay(m)) && 0 <= n < 7
  {
    Weekday(FirstDay(m))
  }

  /** Every day of the month lands in the column of its own weekday, and
      the grid has at most six rows. */
  lemma GridColumns(m: Month, i: int)
    requires ValidMonth(m) && 0 <= i < DaysInMonth(m)
    ensures (LeadingBlanks(m) + i) % 7 == Weekday(Days(m)[i])
    ensures LeadingBlanks(m) + DaysInMonth(m) <= 42
  {
    WeekdayShift(FirstDay(m), i);
  }

  lemma WeekdayShift(d: int, i: int)
    ensures (Weekday(d) + i) % 7 == Weekday(d + i)
  {
    var q := (d + 4) / 7;
    assert d + 4 == 7 * q + Weekday(d);
    assert d + i + 4 == 7 * q + (Weekday(d) + i);
  }

  /** The events that start on day `d`, in their order. */
  function EventsOn<T(!new)>(es: seq<T>, start: T -> int, d: int, utcOffset: int): (r: seq<T>)
    ensures forall e :: e in r <==> e in es && LocalDay(start(e), utcOffset) == d
    ensures |r| <= |es|
    decreases |es|
  {
    if |es| == 0 then []
    else
      var init := es[..|es| - 1];
      var last := es[|es| - 1];
      assert es == init + [last];
      EventsOn(init, start, d, utcOffset) + (if LocalDay(start(last), utcOffset) == d then [last] else [])
  }

  /** The filter keeps the order: filtering a concatenation concatenates
      the filtered parts. */
  lemma {:induction false} EventsOnAppend<T(!new)>(a: seq<T>, b: seq<T>, start: T -> int, d: int, utcOffset: int)
    ensures EventsOn(a + b, start, d, utcOffset) == EventsOn(a, start, d, utcOffset) + EventsOn(b, start, d, utcOffset)
    decreases |b|
  {
    if |b| > 0 {
      var init := b[..|b| - 1];
      assert a + b == (a + init) + [b[|b| - 1]];
      EventsOnAppend(a, init, start, d, utcOffset);
    } else {
      assert a + b == a;
    }
  }

  /** `selectedEvents`: nothing without a selected day. */
  function Selected<T(!new)>(es: seq<T>, start: T -> int, selected: Option<int>, utcOffset: int): (r: seq<T>)
    ensures selected.None? ==> r == []
    ensures selected.Some? ==> r == EventsOn(es, start, selected.value, utcOffset)
  {
    if selected.None? then [] else EventsOn(es, start, selected.value, utcOffset)
  }

  /** `hasEvent`: some event starts on the day. */
  predicate HasEvent<T>(es: seq<T>, start: T -> int, d: int, utcOffset: int) {
    exists i :: 0 <= i < |es| && LocalDay(start(es[i]), utcOffset) == d
  }

  /** A day has an event exactly when selecting it lists at least one. */
  lemma HasEventIffListed<T(!new)>(es: seq<T>, start: T -> int, d: int, utcOffset: int)
    ensures HasEvent(es, start, d, utcOffset) <==> Selected(es, start, Some(d), utcOffset) != []
  {
    var r := EventsOn(es, start, d, utcOffset);
    if HasEvent(es, start, d, utcOffset) {
      var i :| 0 <= i < |es| && LocalDay(start(es[i]), utcOffset) == d;
      assert es[i] in r;
    }
    if r != [] {
      assert r[0] in es;
    }
  }

  /** The dot under a day. */
  predicate DotShown(hasEvent: bool, selected: Option<int>, d: int) {
    hasEvent && selected != Some(d)
  }

  /** The dot marks exactly the unselected days that have events; the
      selected day never has one. */
  lemma DotRule<T(!new)>(es: seq<T>, start: T -> int, selected: Option<int>, d: int, utcOffset: int)
    ensures DotShown(HasEvent(es, start, d, utcOffset), selected, d) <==>
              selected != Some(d) && Selected(es, start, Some(d), utcOffset) != []
    ensures !DotShown(HasEvent(es, start, d, utcOffset), Some(d), d)
  {
    HasEventIffListed(es, start, d, utcOffset);
  }

  /** The displayed month and the selected day, changed by the arrows and
      by clicks on days. */
  class MonthView {
    var current: Month
    var selected: Option<int>

    constructor (today: Month)
      requires ValidMonth(today)
      ensures current == today && selected.None?
    {
      current := today;
      selected := None;
    }

    predicate Valid()
      reads this
    {
      ValidMonth(current)
    }

    method NextMonth()
      requires Valid()
      modifies this`current
      ensures Valid() && current == Next(old(current))
    {
      current := Next(current);
    }

    method PrevMonth()
      requires Valid()
      modifies this`current
      ensures Valid() && current == Prev(old(current))
    {
      current := Prev(current);
    }

    /** A click on a day selects it; the month shown does not change. */
    method SelectDay(d: int)
      modifies this`selected
      ensures selected == Some(d)
    {
      selected := Some(d);
    }
  }
}
