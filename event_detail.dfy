/** The event detail screen: the event with its teams, the attendance list
    with a status per player, marking attendance, and for coaches and super
    admins editing, cancelling and deleting the event.

    Instants are milliseconds since the epoch in UTC, which is what a
    JavaScript `Date` holds. The text fields of the editor are modelled by
    what they denote: the date field by its day number, each time field by
    its minute of the day; an empty field is `None`. */
module EventDetail {
  import opened Common

  const MinuteMs: int := 60000
  const DayMs: int := 86400000
  const MinutesPerDay: int := 1440

  datatype AttendanceStatus = PresentStatus | AbsentStatus | UnknownStatus

  datatype PlayerRef = PlayerRef(id: string, fullName: string)

  /** An `attendance` row as fetched: the joined player may come back as an
      object, a list or null. */
  datatype AttendanceRow = AttendanceRow(id: string, status: AttendanceStatus, players: Joined<PlayerRef>)

  /** An attendance row after normalisation: the players always a list. */
  datatype Attendance = Attendance(id: string, status: AttendanceStatus, players: seq<PlayerRef>)

  function Normalise(rows: seq<AttendanceRow>): (r: seq<Attendance>)
    ensures |r| == |rows|
    ensures forall i :: 0 <= i < |rows| ==> r[i].id == rows[i].id && r[i].status == rows[i].status
    ensures forall i :: 0 <= i < |rows| ==> rows[i].players.JNull? ==> r[i].players == []
    ensures forall i :: 0 <= i < |rows| ==> rows[i].players.JOne? ==> r[i].players == [rows[i].players.item]
    ensures forall i :: 0 <= i < |rows| ==> rows[i].players.JMany? ==> r[i].players == rows[i].players.items
  {
    seq(|rows|, i requires 0 <= i < |rows| => Attendance(rows[i].id, rows[i].status, AsList(rows[i].players)))
  }

  /** The name shown on a row: `players[0]?.full_name`. */
  function RowName(a: Attendance): (name: Option<string>)
    ensures name.Some? <==> |a.players| > 0
    ensures name.Some? ==> name.value == a.players[0].fullName
  {
    if |a.players| > 0 then Some(a.players[0].fullName) else None
  }

  /** The list after a successful status update: every row with that id
      takes the new status, every other row is kept. */
  function WithStatus(rows: seq<Attendance>, id: string, status: AttendanceStatus): (r: seq<Attendance>)
    ensures |r| == |rows|
    ensures forall i :: 0 <= i < |rows| ==> r[i].id == rows[i].id && r[i].players == rows[i].players
    ensures forall i :: 0 <= i < |rows| && rows[i].id == id ==> r[i].status == status
    ensures forall i :: 0 <= i < |rows| && rows[i].id != id ==> r[i] == rows[i]
  {
    seq(|rows|, i requires 0 <= i < |rows| => if rows[i].id == id then rows[i].(status := status) else rows[i])
  }

  /** The last update of a row wins, and updates of different rows
      commute. */
  lemma WithStatusLastWins(rows: seq<Attendance>, id: string, a: AttendanceStatus, b: AttendanceStatus)
    ensures WithStatus(WithStatus(rows, id, a), id, b) == WithStatus(rows, id, b)
  {
    var lhs := WithStatus(WithStatus(rows, id, a), id, b);
    var rhs := WithStatus(rows, id, b);
    assert forall i :: 0 <= i < |rows| ==> lhs[i] == rhs[i];
  }

  lemma WithStatusCommutes(rows: seq<Attendance>, id1: string, id2: string, a: AttendanceStatus, b: AttendanceStatus)
    requires id1 != id2
    ensures WithStatus(WithStatus(rows, id1, a), id2, b) == WithStatus(WithStatus(rows, id2, b), id1, a)
  {
    var lhs := WithStatus(WithStatus(rows, id1, a), id2, b);
    var rhs := WithStatus(WithStatus(rows, id2, b), id1, a);
    assert forall i :: 0 <= i < |rows| ==> lhs[i] == rhs[i];
  }

  /** An event as selected, with its teams reduced to their names. */
  datatype EventData = EventData(
    id: string, title: string, clubId: string, start: int, end: int,
    kind: string, cancelled: bool, teams: seq<string>)

  /** The team names of the teams line, shown only when the event has
      teams. */
  function TeamsLine(e: EventData): (names: Option<seq<string>>)
    ensures names.Some? <==> |e.teams| > 0
    ensures names.Some? ==> names.value == e.teams
  {
    if |e.teams| > 0 then Some(e.teams) else None
  }

  // ---------------------------------------------------------------------
  // The editor's date and time fields
  // ---------------------------------------------------------------------

  /** `toISOString()`: ten characters of date, `T`, five characters of
      hours and minutes, then `:`, seconds, milliseconds and `Z`. */
  datatype IsoParts = IsoParts(date: string, time: string, rest: string)

  predicate WellFormedIso(p: IsoParts) {
    |p.date| == 10 && |p.time| == 5
  }

  function IsoText(p: IsoParts): string {
    p.date + "T" + p.time + ":" + p.rest
  }

  /** `slice(0, 10)` and `slice(11, 16)` of an ISO text give back its date
      and its time of day. */
  lemma IsoSlices(p: IsoParts)
    requires WellFormedIso(p)
    ensures IsoText(p)[..10] == p.date
    ensures IsoText(p)[11..16] == p.time
  {
    var s := IsoText(p);
    assert s == p.date + ("T" + p.time + ":" + p.rest);
    assert s[11..16] == (p.date + "T" + p.time)[11..16];
  }

  /** The UTC day of an instant (the date field) and its UTC minute of the
      day (a time field); seconds and milliseconds are dropped. */
  function DayOf(t: int): int { t / DayMs }
  function MinuteOfDay(t: int): (m: int)
    ensures 0 <= m < MinutesPerDay
  {
    (t / MinuteMs) % MinutesPerDay
  }

  /** The instant truncated to the whole minute. */
  function TruncMinute(t: int): (r: int)
    ensures r <= t < r + MinuteMs
    ensures r % MinuteMs == 0
  {
    t - t % MinuteMs
  }

  /** The day and the minute of the day locate the truncated instant. */
  lemma DayAndMinute(t: int)
    ensures DayOf(t) * DayMs + MinuteOfDay(t) * MinuteMs == TruncMinute(t)
  {
    var m := t / MinuteMs;
    var q := m / MinutesPerDay;
    var s := m % MinutesPerDay;
    var r := t % MinuteMs;
    assert t == m * MinuteMs + r;
    assert m == q * MinutesPerDay + s;
    assert t == q * DayMs + (s * MinuteMs + r);
    assert 0 <= s * MinuteMs + r < DayMs;
    assert t / DayMs == q;
  }

  /** The fields the editor is filled with from an event. */
  datatype EditFields = EditFields(
    title: string, kind: string, date: Option<int>, startTime: Option<int>, endTime: Option<int>)

  function FieldsOf(e: EventData): (f: EditFields)
    ensures f.title == e.title && f.kind == e.kind
    ensures f.date == Some(DayOf(e.start))
    ensures f.startTime == Some(MinuteOfDay(e.start)) && f.endTime == Some(MinuteOfDay(e.end))
  {
    EditFields(e.title, e.kind, Some(DayOf(e.start)), Some(MinuteOfDay(e.start)), Some(MinuteOfDay(e.end)))
  }

  /** `new Date(`${date}T${time}`)` as written: a date and time without an
      offset is read in the browser's local time zone, `utcOffset` minutes
      ahead of UTC. */
  function LocalInstant(day: int, minute: int, utcOffset: int): int {
    day * DayMs + minute * MinuteMs - utcOffset * MinuteMs
  }

  /** The fields are read in UTC but written back in local time: opening the
      editor and saving without a change moves the start by the offset. */
  lemma SaveUnchangedShifts(e: EventData, utcOffset: int)
    ensures var f := FieldsOf(e);
            LocalInstant(f.date.value, f.startTime.value, utcOffset) == TruncMinute(e.start) - utcOffset * MinuteMs
  {
    DayAndMinute(e.start);
  }

  /** A concrete case: in a zone two hours ahead of UTC, an event starting at
      16:00 UTC on day 19853 is saved as starting at 14:00 UTC. */
  lemma SaveUnchangedShiftsExample()
    ensures var e := EventData("e", "t", "c", 19853 * DayMs + 960 * MinuteMs, 19853 * DayMs + 1020 * MinuteMs, "training", false, []);
            var f := FieldsOf(e);
            LocalInstant(f.date.value, f.startTime.value, 120) == 19853 * DayMs + 840 * MinuteMs
  {
    var e := EventData("e", "t", "c", 19853 * DayMs + 960 * MinuteMs, 19853 * DayMs + 1020 * MinuteMs, "training", false, []);
    SaveUnchangedShifts(e, 120);
  }

  /** The evidently intended reading of the fields: in UTC, the zone they
      were written in. */
  function UtcInstant(day: int, minute: int): int {
    day * DayMs + minute * MinuteMs
  }

  /** With the intended reading, saving unchanged fields keeps the start to
      the minute, and keeps the end's time of day. */
  lemma SaveUnchangedKeepsTimes(e: EventData)
    ensures var f := FieldsOf(e);
            UtcInstant(f.date.value, f.startTime.value) == TruncMinute(e.start)
    ensures var f := FieldsOf(e);
            MinuteOfDay(UtcInstant(f.date.value, f.endTime.value)) == MinuteOfDay(e.end)
  {
    DayAndMinute(e.start);
    var f := FieldsOf(e);
    var u := UtcInstant(f.date.value, f.endTime.value);
    var d := f.date.value;
    var m := f.endTime.value;
    assert u == (d * MinutesPerDay + m) * MinuteMs;
    assert u / MinuteMs == d * MinutesPerDay + m;
    assert (d * MinutesPerDay + m) % MinutesPerDay == m;
  }

  /** Saving is attempted only when the title and the three date and time
      fields are filled in. */
  predicate CanSave(f: EditFields) {
    f.title != "" && f.date.Some? && f.startTime.Some? && f.endTime.Some?
  }

  /** The event after a successful save, as written: title, type and both
      instants replaced, the instants read in the browser's zone; the end
      takes the date of the start. */
  function Saved(e: EventData, f: EditFields, utcOffset: int): (r: EventData)
    requires CanSave(f)
    ensures r.title == f.title && r.kind == f.kind
    ensures r.start == LocalInstant(f.date.value, f.startTime.value, utcOffset)
    ensures r.end == LocalInstant(f.date.value, f.endTime.value, utcOffset)
    ensures r.id == e.id && r.clubId == e.clubId && r.cancelled == e.cancelled && r.teams == e.teams
  {
    e.(title := f.title, kind := f.kind,
       start := LocalInstant(f.date.value, f.startTime.value, utcOffset),
       end := LocalInstant(f.date.value, f.endTime.value, utcOffset))
  }

  /** The event after a successful save with the evidently intended
      reading of the fields, in UTC. */
  function SavedIntended(e: EventData, f: EditFields): (r: EventData)
    requires CanSave(f)
    ensures r.title == f.title && r.kind == f.kind
    ensures r.start == UtcInstant(f.date.value, f.startTime.value)
    ensures r.end == UtcInstant(f.date.value, f.endTime.value)
    ensures r.id == e.id && r.clubId == e.clubId && r.cancelled == e.cancelled && r.teams == e.teams
  {
    e.(title := f.title, kind := f.kind,
       start := UtcInstant(f.date.value, f.startTime.value),
       end := UtcInstant(f.date.value, f.endTime.value))
  }

  /** Opening the editor and saving it unchanged: as written the event
      moves by the zone's offset; with the intended reading it keeps its
      start to the minute and its end's time of day, and differs from the
      written one only when the offset is not zero. */
  lemma SaveUnchangedEvent(e: EventData, utcOffset: int)
    requires e.title != ""
    ensures CanSave(FieldsOf(e))
    ensures Saved(e, FieldsOf(e), utcOffset).start == TruncMinute(e.start) - utcOffset * MinuteMs
    ensures SavedIntended(e, FieldsOf(e)).start == TruncMinute(e.start)
    ensures MinuteOfDay(SavedIntended(e, FieldsOf(e)).end) == MinuteOfDay(e.end)
    ensures Saved(e, FieldsOf(e), utcOffset) == SavedIntended(e, FieldsOf(e)) <==> utcOffset == 0
  {
    SaveUnchangedShifts(e, utcOffset);
    SaveUnchangedKeepsTimes(e);
  }

  /** The message posted when an event is cancelled. */
  datatype Notice = Notice(clubId: string, title: string, body: string)

  function CancelNotice(e: EventData): (n: Notice)
    ensures n.clubId == e.clubId && n.title == "Event cancelled"
    ensures |n.body| == |e.title| + 20
    ensures n.body[..|e.title|] == e.title && n.body[|e.title|..] == " has been cancelled."
  {
    Notice(e.clubId, "Event cancelled", e.title + " has been cancelled.")
  }

  /** What the screen shows; `controls` tells whether the edit, delete and
      cancel buttons and the attendance buttons are offered. */
  datatype DetailView = Loading | NotFound | Shown(event: EventData, editing: bool, controls: bool)

  class EventDetailScreen {
    var role: Option<Role>
    var event: Option<EventData>
    var attendance: seq<Attendance>
    var loading: bool
    var savingId: Option<string>
    var errorId: Option<string>
    var isEditing: bool
    var confirmDelete: bool
    var confirmCancel: bool
    var savingEvent: bool
    var deleting: bool
    var fields: EditFields

    constructor (role: Option<Role>)
      ensures this.role == role && event.None? && attendance == [] && loading
      ensures savingId.None? && errorId.None? && !isEditing && !confirmDelete && !confirmCancel
      ensures !savingEvent && !deleting && fields == EditFields("", "training", None, None, None)
    {
      this.role := role;
      event := None;
      attendance := [];
      loading := true;
      savingId := None;
      errorId := None;
      isEditing := false;
      confirmDelete := false;
      confirmCancel := false;
      savingEvent := false;
      deleting := false;
      fields := EditFields("", "training", None, None, None);
    }

    function View(): (v: DetailView)
      reads this
      ensures v.Shown? <==> !loading && event.Some?
      ensures v.Shown? ==> v.event == event.value && v.editing == isEditing && (v.controls <==> ManagesEvents(role))
    {
      if loading then Loading
      else if event.None? then NotFound
      else Shown(event.value, isEditing, ManagesEvents(role))
    }

    /** The load effect: the event is kept only when its query succeeds;
        the attendance list is replaced in any case, by the empty list when
        its query yields nothing. */
    method Load(eventReply: Reply<EventData>, attendanceReply: Reply<seq<AttendanceRow>>)
      modifies this
      ensures event == (if eventReply.Rows? then Some(eventReply.data) else old(event))
      ensures !loading
      ensures attendance == Normalise(attendanceReply.DataOr([]))
      ensures role == old(role) && isEditing == old(isEditing) && fields == old(fields)
      ensures savingId == old(savingId) && errorId == old(errorId)
      ensures confirmDelete == old(confirmDelete) && confirmCancel == old(confirmCancel)
      ensures savingEvent == old(savingEvent) && deleting == old(deleting)
    {
      if eventReply.Rows? {
        event := Some(eventReply.data);
      }
      loading := false;
      attendance := Normalise(attendanceReply.DataOr([]));
    }

    /** Opening the editor; its effect fills the fields from the event. */
    method OpenEditor()
      modifies this
      ensures isEditing
      ensures fields == (if old(event).Some? then FieldsOf(old(event).value) else old(fields))
      ensures event == old(event) && attendance == old(attendance) && loading == old(loading)
      ensures role == old(role) && savingId == old(savingId) && errorId == old(errorId)
      ensures confirmDelete == old(confirmDelete) && confirmCancel == old(confirmCancel)
      ensures savingEvent == old(savingEvent) && deleting == old(deleting)
    {
      isEditing := true;
      if event.Some? {
        fields := FieldsOf(event.value);
      }
    }

    /** `updateStatus`: a failure marks the row as failed; a success sets
        the status locally. Either way the row stops saving. */
    method UpdateStatus(attendanceId: string, status: AttendanceStatus, ack: Ack)
      modifies this
      ensures savingId.None?
      ensures ack.Rejected? ==> errorId == Some(attendanceId) && attendance == old(attendance)
      ensures ack.Done? ==> errorId.None? && attendance == WithStatus(old(attendance), attendanceId, status)
      ensures event == old(event) && loading == old(loading) && isEditing == old(isEditing) && fields == old(fields)
      ensures role == old(role) && confirmDelete == old(confirmDelete) && confirmCancel == old(confirmCancel)
      ensures savingEvent == old(savingEvent) && deleting == old(deleting)
    {
      savingId := Some(attendanceId);
      errorId := None;
      if ack.Rejected? {
        errorId := Some(attendanceId);
        savingId := None;
        return;
      }
      attendance := WithStatus(attendance, attendanceId, status);
      savingId := None;
    }

    /** `saveEventChanges`, as written: the instants are read in the
        browser's zone, `utcOffset` minutes ahead of UTC. Nothing happens
        while a field is empty; a failure keeps the editor open. */
    method SaveEventChanges(ack: Ack, utcOffset: int)
      modifies this
      ensures !CanSave(old(fields)) ==> event == old(event) && isEditing == old(isEditing) && savingEvent == old(savingEvent)
      ensures CanSave(old(fields)) ==> !savingEvent
      ensures CanSave(old(fields)) && ack.Rejected? ==> event == old(event) && isEditing == old(isEditing)
      ensures CanSave(old(fields)) && ack.Done? ==>
                !isEditing && event == (if old(event).Some? then Some(Saved(old(event).value, old(fields), utcOffset)) else None)
      ensures fields == old(fields) && attendance == old(attendance) && loading == old(loading)
      ensures role == old(role) && savingId == old(savingId) && errorId == old(errorId)
      ensures confirmDelete == old(confirmDelete) && confirmCancel == old(confirmCancel) && deleting == old(deleting)
    {
      if !CanSave(fields) {
        return;
      }
      savingEvent := true;
      savingEvent := false;
      if ack.Rejected? {
        return;
      }
      if event.Some? {
        event := Some(Saved(event.value, fields, utcOffset));
      }
      isEditing := false;
    }

    /** `deleteEvent`; `back` tells whether the screen navigates back. */
    method DeleteEvent(ack: Ack) returns (back: bool)
      modifies this
      ensures back <==> old(event).Some? && ack.Done?
      ensures deleting == (if old(event).Some? then false else old(deleting))
      ensures event == old(event) && attendance == old(attendance) && loading == old(loading)
      ensures role == old(role) && isEditing == old(isEditing) && fields == old(fields)
      ensures savingId == old(savingId) && errorId == old(errorId)
      ensures confirmDelete == old(confirmDelete) && confirmCancel == old(confirmCancel) && savingEvent == old(savingEvent)
    {
      if event.None? {
        return false;
      }
      deleting := true;
      deleting := false;
      back := ack.Done?;
    }

    /** `cancelEvent`: on success the event is marked cancelled and a
        notice is posted to its club. */
    method CancelEvent(ack: Ack) returns (notice: Option<Notice>)
      modifies this
      ensures notice.Some? <==> old(event).Some? && ack.Done?
      ensures notice.Some? ==> notice.value == CancelNotice(old(event).value) && event == Some(old(event).value.(cancelled := true))
      ensures notice.None? ==> event == old(event)
      ensures attendance == old(attendance) && loading == old(loading)
      ensures role == old(role) && isEditing == old(isEditing) && fields == old(fields)
      ensures savingId == old(savingId) && errorId == old(errorId) && deleting == old(deleting)
      ensures confirmDelete == old(confirmDelete) && confirmCancel == old(confirmCancel) && savingEvent == old(savingEvent)
    {
      if event.None? || ack.Rejected? {
        return None;
      }
      var e := event.value;
      event := Some(e.(cancelled := true));
      notice := Some(CancelNotice(e));
    }
  }
}
