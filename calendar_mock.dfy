/** The calendar screen over the demonstration events: the same grid and
    selection as the database-backed screen, with the four events that
    start one to four days after the data was built. */
module MockCalendar {
  import opened Common
  import opened CalendarGrid
  import opened MockData

  /** `selectedEvents` over the demonstration events. */
  function SelectedEvents(loaded: int, selected: Option<int>, utcOffset: int): seq<MockEvent> {
    Selected(MockEvents(loaded), Start, selected, utcOffset)
  }

  /** `eventDates`: the start of each event. */
  function StartDates(es: seq<MockEvent>): (ds: seq<int>)
    ensures |ds| == |es|
    ensures forall i :: 0 <= i < |es| ==> ds[i] == es[i].start
  {
    seq(|es|, i requires 0 <= i < |es| => es[i].start)
  }

  /** `hasEvent`, through the list of start dates. */
  predicate HasEventDay(loaded: int, d: int, utcOffset: int) {
    var ds := StartDates(MockEvents(loaded));
    exists i :: 0 <= i < |ds| && LocalDay(ds[i], utcOffset) == d
  }

  lemma DayShift(t: int, k: int, utcOffset: int)
    ensures LocalDay(t + k * DayMs, utcOffset) == LocalDay(t, utcOffset) + k
  {
  }

  /** Exactly the four days after the day the data was built carry
      events, whatever the zone. */
  lemma EventDays(loaded: int, d: int, utcOffset: int)
    ensures HasEventDay(loaded, d, utcOffset) <==>
              LocalDay(loaded, utcOffset) + 1 <= d <= LocalDay(loaded, utcOffset) + 4
  {
    var ds := StartDates(MockEvents(loaded));
    forall i | 0 <= i < 4 ensures LocalDay(ds[i], utcOffset) == LocalDay(loaded, utcOffset) + i + 1 {
      DayShift(loaded, i + 1, utcOffset);
    }
    var k := d - LocalDay(loaded, utcOffset);
    if 1 <= k <= 4 {
      assert LocalDay(ds[k - 1], utcOffset) == d;
    }
  }

  /** Mapping the events to their start dates first decides the same days
      as looking at the events themselves. */
  lemma HasEventDayAgrees(loaded: int, d: int, utcOffset: int)
    ensures HasEventDay(loaded, d, utcOffset) <==> HasEvent(MockEvents(loaded), Start, d, utcOffset)
  {
    var es := MockEvents(loaded);
    var ds := StartDates(es);
    if HasEventDay(loaded, d, utcOffset) {
      var i :| 0 <= i < |ds| && LocalDay(ds[i], utcOffset) == d;
      assert LocalDay(Start(es[i]), utcOffset) == d;
    }
    if HasEvent(es, Start, d, utcOffset) {
      var i :| 0 <= i < |es| && LocalDay(Start(es[i]), utcOffset) == d;
      assert LocalDay(ds[i], utcOffset) == d;
    }
  }

  /** The badge of a card: the strong variant for a match only. */
  datatype BadgeVariant = DefaultBadge | SecondaryBadge

  function TypeBadge(e: MockEvent): (b: BadgeVariant)
    ensures b == DefaultBadge <==> e.eventType == Match
  {
    if e.eventType == Match then DefaultBadge else SecondaryBadge
  }
}
