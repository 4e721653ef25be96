/** The profile screen: the user's card with the club, the demo role
    switcher, the menu, the club editor of the super admin, and the dialogs
    that list and create events. */
module Profile {
  import opened Common
  import AuthContext

  /** A `clubs` row as the profile selects it. */
  datatype ClubInfo = ClubInfo(name: Option<string>, logoUrl: Option<string>, primaryColor: Option<string>)

  /** The three texts of the club editor. */
  datatype ClubForm = ClubForm(name: string, logoUrl: string, primaryColor: string)

  /** The editor's texts for a fetched club: each field or the empty text. */
  function FormOf(c: ClubInfo): (f: ClubForm)
    ensures Present(c.name) ==> f.name == c.name.value
    ensures !Present(c.name) ==> f.name == ""
    ensures Present(c.logoUrl) ==> f.logoUrl == c.logoUrl.value
    ensures !Present(c.logoUrl) ==> f.logoUrl == ""
    ensures Present(c.primaryColor) ==> f.primaryColor == c.primaryColor.value
    ensures !Present(c.primaryColor) ==> f.primaryColor == ""
  {
    ClubForm(if Present(c.name) then c.name.value else "",
             if Present(c.logoUrl) then c.logoUrl.value else "",
             if Present(c.primaryColor) then c.primaryColor.value else "")
  }

  /** The club after a successful edit: all three fields from the form. */
  function ClubOf(f: ClubForm): ClubInfo {
    ClubInfo(Some(f.name), Some(f.logoUrl), Some(f.primaryColor))
  }

  /** Saving a form and reading it back into the editor gives the same
      form: the editor and the saved club agree. */
  lemma FormRoundTrip(f: ClubForm)
    ensures FormOf(ClubOf(f)) == f
  {
  }

  /** Reading a club into the editor and saving it unchanged keeps every
      non-empty field, and turns a missing one into the empty text. */
  lemma SaveUnchangedClub(c: ClubInfo)
    ensures Present(c.name) ==> ClubOf(FormOf(c)).name == c.name
    ensures !Present(c.name) ==> ClubOf(FormOf(c)).name == Some("")
  {
  }

  datatype MenuItem = ManageEvents | AccountSettings | Privacy | HelpAndSupport

  /** The menu: "Gestionar eventos" first for those who manage events, then
      the three entries everyone has. */
  function MenuItems(role: Option<Role>): (items: seq<MenuItem>)
    ensures |items| == (if ManagesEvents(role) then 4 else 3)
    ensures ManageEvents in items <==> ManagesEvents(role)
    ensures items[|items| - 3..] == [AccountSettings, Privacy, HelpAndSupport]
  {
    (if ManagesEvents(role) then [ManageEvents] else []) + [AccountSettings, Privacy, HelpAndSupport]
  }

  /** The roles of the demo switcher. */
  const DemoRoles: seq<Role> := [Parent, Coach, Player]

  /** No switch of the demo switcher leads to the super admin, and a super
      admin who switches cannot switch back. */
  lemma SwitchLeavesSuperAdmin(s: AuthContext.AuthState, i: int)
    requires 0 <= i < |DemoRoles|
    ensures AuthContext.WithRole(s, DemoRoles[i]).role != Some(SuperAdmin)
    ensures !ManagesEvents(AuthContext.WithRole(s, DemoRoles[i]).role) <==> DemoRoles[i] != Coach
  {
  }

  /** The scope of a new event. */
  datatype Scope = Global | ForTeams

  /** The body sent to the event function. */
  datatype EventRequest = EventRequest(
    title: string, start: string, end: string, eventType: string,
    scope: Scope, clubId: string, teamIds: Option<seq<string>>)

  /** What the event function answers: a network failure, or a status and
      a body that is JSON (with or without an `error` field) or not. */
  datatype EventResponse = Unreachable | Answered(ok: bool, json: bool, error: Option<string>)

  /** The outcome of `handleSave`: created, or the message shown. */
  datatype SaveOutcome = Created | Refused(message: string)

  /** `handleSave` of the event dialog, before anything is sent. */
  function SavePrecheck(clubId: Option<string>, scope: Scope, selectedTeams: seq<string>, token: Option<string>): (m: Option<string>)
    ensures !Present(clubId) ==> m == Some("No se ha encontrado el club. Reintenta o contacta con soporte.")
    ensures Present(clubId) && scope == ForTeams && |selectedTeams| == 0 ==> m == Some("Debes seleccionar al menos un equipo")
    ensures m.None? <==> Present(clubId) && !(scope == ForTeams && |selectedTeams| == 0) && Present(token)
  {
    if !Present(clubId) then Some("No se ha encontrado el club. Reintenta o contacta con soporte.")
    else if scope == ForTeams && |selectedTeams| == 0 then Some("Debes seleccionar al menos un equipo")
    else if !Present(token) then Some("No hay sesión activa. Por favor, vuelve a iniciar sesión.")
    else None
  }

  /** The request sent: the team ids only for a team event. */
  function RequestOf(title: string, start: string, end: string, eventType: string,
                     scope: Scope, clubId: string, selectedTeams: seq<string>): (r: EventRequest)
    ensures r.teamIds.Some? <==> scope == ForTeams
    ensures r.teamIds.Some? ==> r.teamIds.value == selectedTeams
    ensures r.clubId == clubId && r.scope == scope && r.title == title
  {
    EventRequest(title, start, end, eventType, scope, clubId, if scope == ForTeams then Some(selectedTeams) else None)
  }

  /** The outcome of the answer. A body that is not JSON has no `error`,
      so a successful status with such a body counts as created. */
  function SaveResult(resp: EventResponse): (o: SaveOutcome)
    ensures o == Created <==> resp.Answered? && resp.ok && !(resp.json && Present(resp.error))
    ensures resp.Unreachable? ==> o == Refused("Error inesperado al crear el evento")
    ensures resp.Answered? && resp.json && Present(resp.error) ==> o == Refused(resp.error.value)
    ensures resp.Answered? && !resp.ok && !(resp.json && Present(resp.error)) ==> o == Refused("Error al crear el evento")
  {
    match resp
    case Unreachable => Refused("Error inesperado al crear el evento")
    case Answered(ok, json, error) =>
      var err := if json then error else None;
      if !ok || Present(err) then Refused(if Present(err) then err.value else "Error al crear el evento")
      else Created
  }

  /** An `events` row as the management dialog lists it. */
  datatype ListedEvent = ListedEvent(id: string, title: string, scope: Option<string>)

  /** The badge of a listed event. */
  function ScopeBadge(e: ListedEvent): (b: string)
    ensures b == "Club" <==> e.scope == Some("global")
    ensures b != "Club" ==> b == "Equipo"
  {
    if e.scope == Some("global") then "Club" else "Equipo"
  }

  /** The event creation dialog. */
  class CreateEventDialog {
    var open: bool
    var scope: Scope
    var title: string
    var start: string
    var end: string
    var eventType: string
    var selectedTeams: seq<string>
    var saving: bool
    var error: Option<string>

    constructor ()
      ensures !open && scope == Global && title == "" && start == "" && end == "" && eventType == "training"
      ensures selectedTeams == [] && !saving && error.None?
    {
      open := false;
      scope := Global;
      title := "";
      start := "";
      end := "";
      eventType := "training";
      selectedTeams := [];
      saving := false;
      error := None;
    }

    /** `handleSave`; `sent` is the request, if one was sent, and `created`
        tells whether the caller's refresh runs. */
    method HandleSave(clubId: Option<string>, token: Option<string>, resp: EventResponse)
      returns (sent: Option<EventRequest>, created: bool)
      modifies this`saving, this`error, this`open
      ensures !saving
      ensures var pre := SavePrecheck(clubId, old(scope), old(selectedTeams), token);
              sent.Some? <==> pre.None?
      ensures SavePrecheck(clubId, old(scope), old(selectedTeams), token).Some? ==>
                error == SavePrecheck(clubId, old(scope), old(selectedTeams), token) && !created && open == old(open)
      ensures sent.Some? ==> sent.value == RequestOf(old(title), old(start), old(end), old(eventType), old(scope), clubId.value, old(selectedTeams))
      ensures sent.Some? ==> (created <==> SaveResult(resp) == Created)
      ensures sent.Some? && created ==> !open && error.None?
      ensures sent.Some? && !created ==> error == Some(SaveResult(resp).message) && open == old(open)
      ensures scope == old(scope) && title == old(title) && selectedTeams == old(selectedTeams)
    {
      saving := true;
      error := None;
      sent := None;
      created := false;
      var pre := SavePrecheck(clubId, scope, selectedTeams, token);
      if pre.Some? {
        error := pre;
        saving := false;
        return;
      }
      sent := Some(RequestOf(title, start, end, eventType, scope, clubId.value, selectedTeams));
      var outcome := SaveResult(resp);
      if outcome.Refused? {
        error := Some(outcome.message);
      } else {
        created := true;
        open := false;
      }
      saving := false;
    }
  }

  /** The profile screen's own state. */
  class ProfileScreen {
    var club: Option<ClubInfo>
    var form: ClubForm
    var editOpen: bool
    var saving: bool
    var accountOpen: bool
    var manageOpen: bool
    var teams: seq<(string, string)>
    var events: seq<ListedEvent>
    var loadingEvents: bool
    var eventsError: Option<string>

    constructor ()
      ensures club.None? && form == ClubForm("", "", "") && !editOpen && !saving && !accountOpen && !manageOpen
      ensures teams == [] && events == [] && !loadingEvents && eventsError.None?
    {
      club := None;
      form := ClubForm("", "", "");
      editOpen := false;
      saving := false;
      accountOpen := false;
      manageOpen := false;
      teams := [];
      events := [];
      loadingEvents := false;
      eventsError := None;
    }

    /** `fetchClub`: only with a club id; a found club fills the card and
        the editor. */
    method FetchClub(clubId: Option<string>, reply: Reply<ClubInfo>)
      modifies this`club, this`form
      ensures Present(clubId) && reply.Rows? ==> club == Some(reply.data) && form == FormOf(reply.data)
      ensures !(Present(clubId) && reply.Rows?) ==> club == old(club) && form == old(form)
      ensures editOpen == old(editOpen) && teams == old(teams) && events == old(events)
    {
      if !Present(clubId) {
        return;
      }
      if reply.Rows? {
        club := Some(reply.data);
        form := FormOf(reply.data);
      }
    }

    /** `handleEditClub`: on success the card shows the form's values and
        the editor closes. */
    method HandleEditClub(ack: Ack) returns (update: ClubForm)
      modifies this`saving, this`club, this`editOpen
      ensures update == old(form) && !saving
      ensures ack.Done? ==> club == Some(ClubOf(old(form))) && !editOpen
      ensures ack.Rejected? ==> club == old(club) && editOpen == old(editOpen)
      ensures form == old(form) && teams == old(teams) && events == old(events)
    {
      saving := true;
      update := form;
      saving := false;
      if ack.Done? {
        club := Some(ClubOf(form));
        editOpen := false;
      }
    }

    /** The teams effect: for coaches and super admins with a club. */
    method FetchTeams(role: Option<Role>, clubId: Option<string>, reply: Reply<seq<(string, string)>>)
      modifies this`teams
      ensures ManagesEvents(role) && Present(clubId) ==> teams == reply.DataOr([])
      ensures !(ManagesEvents(role) && Present(clubId)) ==> teams == old(teams)
    {
      if ManagesEvents(role) && Present(clubId) {
        teams := reply.DataOr([]);
      }
    }

    /** `loadEvents`, which the event list dialog runs whenever it opens and
        after an event is created from it; the screen's own copy has the same
        body. A failure shows a message and leaves the list empty. */
    method LoadEvents(reply: Reply<seq<ListedEvent>>)
      modifies this`events, this`loadingEvents, this`eventsError
      ensures events == reply.DataOr([]) && !loadingEvents
      ensures eventsError.Some? <==> reply.Failed?
      ensures eventsError.Some? ==> eventsError.value == "Error al cargar eventos"
    {
      loadingEvents := true;
      eventsError := None;
      if reply.Failed? {
        eventsError := Some("Error al cargar eventos");
      }
      events := reply.DataOr([]);
      loadingEvents := false;
    }

    /** Whether the "Editar club" entry shows under "Account Settings". */
    function ShowsEditClub(role: Option<Role>): (shown: bool)
      reads this
      ensures shown ==> accountOpen
      ensures shown <==> accountOpen && role == Some(SuperAdmin)
    {
      accountOpen && role == Some(SuperAdmin)
    }
  }
}
