/** The event creation screen for coaches and super admins: a form with a
    title, a type, a team, a date and two times, inserted as one event of
    the user's club. Times are read in the browser's local zone. */
module AdminEvents {
  import opened Common
  import EventDetail

  /** The form; the date is a day number and each time a minute of the
      day, `None` while empty. */
  datatype EventForm = EventForm(
    title: string, eventType: string, teamId: string,
    date: Option<int>, startTime: Option<int>, endTime: Option<int>)

  function EmptyForm(eventType: string): EventForm {
    EventForm("", eventType, "", None, None, None)
  }

  /** Every field but the type must be filled in. */
  predicate Complete(f: EventForm) {
    f.title != "" && f.teamId != "" && f.date.Some? && f.startTime.Some? && f.endTime.Some?
  }

  /** The row inserted. */
  datatype NewEvent = NewEvent(clubId: Option<string>, teamId: string, title: string, eventType: string, start: int, end: int)

  /** The row for a complete form: both instants on the form's date, read
      in local time. */
  function NewEventOf(clubId: Option<string>, f: EventForm, utcOffset: int): (e: NewEvent)
    requires Complete(f)
    ensures e.clubId == clubId && e.teamId == f.teamId && e.title == f.title && e.eventType == f.eventType
    ensures e.start == EventDetail.LocalInstant(f.date.value, f.startTime.value, utcOffset)
    ensures e.end == EventDetail.LocalInstant(f.date.value, f.endTime.value, utcOffset)
  {
    NewEvent(clubId, f.teamId, f.title, f.eventType,
             EventDetail.LocalInstant(f.date.value, f.startTime.value, utcOffset),
             EventDetail.LocalInstant(f.date.value, f.endTime.value, utcOffset))
  }

  /** The event lasts exactly from the start time to the end time of the
      form, whatever the offset; an end time before the start time is
      accepted and gives an event that ends before it starts. */
  lemma NewEventDuration(clubId: Option<string>, f: EventForm, utcOffset: int)
    requires Complete(f)
    ensures var e := NewEventOf(clubId, f, utcOffset);
            e.end - e.start == (f.endTime.value - f.startTime.value) * EventDetail.MinuteMs
    ensures f.endTime.value < f.startTime.value ==> NewEventOf(clubId, f, utcOffset).end < NewEventOf(clubId, f, utcOffset).start
  {
  }

  class AdminEventsScreen {
    var role: Option<Role>
    var form: EventForm
    var teams: seq<(string, string)>
    var creating: bool
    var success: bool
    var error: Option<string>

    constructor (role: Option<Role>)
      ensures this.role == role && form == EmptyForm("training") && teams == []
      ensures !creating && !success && error.None?
    {
      this.role := role;
      form := EmptyForm("training");
      teams := [];
      creating := false;
      success := false;
      error := None;
    }

    /** Only coaches and super admins see the form; the others see a
        no-access text. */
    function ShowsForm(): (shown: bool)
      reads this
      ensures shown <==> role == Some(Coach) || role == Some(SuperAdmin)
      ensures role.None? || role == Some(Parent) || role == Some(Player) ==> !shown
    {
      ManagesEvents(role)
    }

    /** The teams effect: with a club, the club's teams or none. */
    method LoadTeams(clubId: Option<string>, reply: Reply<seq<(string, string)>>)
      modifies this`teams
      ensures Present(clubId) ==> teams == reply.DataOr([])
      ensures !Present(clubId) ==> teams == old(teams)
    {
      if Present(clubId) {
        teams := reply.DataOr([]);
      }
    }

    /** `createEvent`: an incomplete form shows the fill-in message (the
        success text stays); otherwise the row is inserted and, on success,
        every field but the type is cleared. */
    method CreateEvent(clubId: Option<string>, utcOffset: int, ack: Ack, fillIn: string, failed: string)
      returns (inserted: Option<NewEvent>)
      modifies this`form, this`creating, this`success, this`error
      ensures inserted.Some? <==> Complete(old(form))
      ensures !Complete(old(form)) ==>
                error == Some(fillIn) && form == old(form) && success == old(success) && creating == old(creating)
      ensures inserted.Some? ==> inserted.value == NewEventOf(clubId, old(form), utcOffset) && !creating
      ensures inserted.Some? && ack.Rejected? ==> error == Some(failed) && !success && form == old(form)
      ensures inserted.Some? && ack.Done? ==> error.None? && success && form == EmptyForm(old(form).eventType)
    {
      if !Complete(form) {
        error := Some(fillIn);
        return None;
      }
      creating := true;
      error := None;
      success := false;
      inserted := Some(NewEventOf(clubId, form, utcOffset));
      creating := false;
      if ack.Rejected? {
        error := Some(failed);
        return;
      }
      success := true;
      form := EmptyForm(form.eventType);
    }
  }
}
