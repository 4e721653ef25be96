/** The calendar screen backed by the database: the events the row-level
    policies let the user see, a month grid with a dot on each day that has
    events, and the list of the selected day's events, each card leading to
    the event's own screen. */
module SharedCalendar {
  import opened Common
  import opened CalendarGrid
  import AppRoutes

  /** An `events` row with the names of its teams; `teams` is `None` when
      the join came back empty-handed. */
  datatype CalendarEvent = CalendarEvent(
    id: string, title: string, start: int, end: int, eventType: string,
    cancelled: bool, clubId: Option<string>, teams: Option<seq<string>>)

  function Start(e: CalendarEvent): int { e.start }

  const LoadFailed: string := "Failed to load events"

  /** A card is dimmed once the event has ended. */
  predicate IsPast(e: CalendarEvent, now: int) { e.end < now }

  /** A card is ringed when the event starts today. */
  predicate IsToday(e: CalendarEvent, now: int, utcOffset: int) {
    LocalDay(e.start, utcOffset) == LocalDay(now, utcOffset)
  }

  /** The teams line of a card: shown only for a non-empty list. */
  function TeamsLine(e: CalendarEvent): (names: Option<seq<string>>)
    ensures names.Some? <==> e.teams.Some? && |e.teams.value| > 0
    ensures names.Some? ==> names.value == e.teams.value
  {
    if e.teams.Some? && |e.teams.value| > 0 then e.teams else None
  }

  /** Where a click on a card goes. */
  function CardTarget(e: CalendarEvent): string { "/events/" + e.id }

  /** For an id that is one path segment, the card leads to the detail
      screen of that very event. */
  lemma CardTargetRoutes(e: CalendarEvent)
    requires e.id != "" && '/' !in e.id
    ensures AppRoutes.LayoutPage(CardTarget(e)) == Some(AppRoutes.EventDetailPage(e.id))
  {
    var p := CardTarget(e);
    assert p[..8] == "/events/" && p[8..] == e.id;
    assert p[1] == 'e';
  }

  class CalendarScreen {
    var events: seq<CalendarEvent>
    var loading: bool
    var error: Option<string>
    const grid: MonthView

    constructor (today: Month)
      requires ValidMonth(today)
      ensures events == [] && loading && error.None?
      ensures fresh(grid) && grid.current == today && grid.selected.None?
    {
      events := [];
      loading := true;
      error := None;
      grid := new MonthView(today);
    }

    /** The load effect, run on every visit: a failure shows the message
        and keeps the previous events; a missing result counts as none. */
    method Load(reply: Reply<seq<CalendarEvent>>)
      modifies this`events, this`loading, this`error
      ensures !loading
      ensures reply.Failed? ==> error == Some(LoadFailed) && events == old(events)
      ensures !reply.Failed? ==> error.None? && events == reply.DataOr([])
    {
      loading := true;
      error := None;
      if reply.Failed? {
        error := Some(LoadFailed);
      } else {
        events := reply.DataOr([]);
      }
      loading := false;
    }

    /** What the screen renders: the spinner, the error text, or the grid. */
    function View(): (v: View)
      reads this
      ensures v == Spinner <==> loading
      ensures v.ErrorView? <==> !loading && error.Some?
    {
      if loading then Spinner
      else if error.Some? then ErrorView(error.value)
      else Content
    }

    /** `selectedEvents`. */
    function SelectedEvents(utcOffset: int): seq<CalendarEvent>
      reads this, grid
    {
      Selected(events, Start, grid.selected, utcOffset)
    }

    /** Whether the cell of day `d` carries the dot. */
    predicate Dot(d: int, utcOffset: int)
      reads this, grid
    {
      DotShown(HasEvent(events, Start, d, utcOffset), grid.selected, d)
    }
  }
}
