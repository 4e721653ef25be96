/** The player's own dashboard: the player's profile, age and teams, the
    teams listed once each even when several memberships join them. */
module PlayerDashboard {
  import opened Common

  /** A `players` row as selected. */
  datatype PlayerProfile = PlayerProfile(id: string, fullName: string, birthDate: Option<CalendarDate>)

  /** A team as joined to a membership. */
  datatype TeamRef = TeamRef(id: string, name: string, season: Option<string>)

  function TeamId(t: TeamRef): string { t.id }

  /** The joined teams that are present, in order. */
  function PresentTeams(rows: seq<Option<TeamRef>>): (r: seq<TeamRef>)
    ensures |r| <= |rows|
    ensures forall t :: t in r <==> Some(t) in rows
    ensures |rows| == 1 ==> r == (if rows[0].Some? then [rows[0].value] else [])
    decreases |rows|
  {
    if |rows| == 0 then []
    else
      var last := rows[|rows| - 1];
      PresentTeams(rows[..|rows| - 1]) + (if last.Some? then [last.value] else [])
  }

  /** The filter keeps the order of the rows: the present teams of two runs
      of rows are those of the first followed by those of the second. */
  lemma {:induction false} PresentTeamsAppend(a: seq<Option<TeamRef>>, b: seq<Option<TeamRef>>)
    ensures PresentTeams(a + b) == PresentTeams(a) + PresentTeams(b)
    decreases |b|
  {
    if |b| == 0 {
      assert a + b == a;
    } else {
      var init := b[..|b| - 1];
      assert a + b == (a + init) + [b[|b| - 1]];
      assert (a + b)[..|a + b| - 1] == a + init;
      assert b[..|b| - 1] == init;
      PresentTeamsAppend(a, init);
    }
  }

  /** The de-duplication loop: a team is pushed the first time its id is
      seen. The result is the first-occurrence filter of the present teams,
      whose properties (distinct ids, every id kept, first occurrence kept,
      order of first appearance) are proved in the shared module. */
  method UniqueTeams(rows: seq<Option<TeamRef>>) returns (unique: seq<TeamRef>)
    ensures unique == DedupBy(PresentTeams(rows), TeamId)
  {
    var seen: set<string> := {};
    unique := [];
    var i := 0;
    while i < |rows|
      invariant 0 <= i <= |rows|
      invariant unique == DedupBy(PresentTeams(rows[..i]), TeamId)
      invariant forall k :: k in seen <==> k in KeysOf(PresentTeams(rows[..i]), TeamId)
    {
      ghost var before := PresentTeams(rows[..i]);
      assert rows[..i + 1][..i] == rows[..i];
      if rows[i].Some? {
        var t := rows[i].value;
        assert PresentTeams(rows[..i + 1]) == before + [t];
        DedupBySnoc(before, t, TeamId);
        if t.id !in seen {
          seen := seen + {t.id};
          unique := unique + [t];
        }
      } else {
        assert PresentTeams(rows[..i + 1]) == before;
      }
      i := i + 1;
    }
    assert rows[..i] == rows;
  }

  /** The date of the birthday at a given age. */
  function Anniversary(b: CalendarDate, age: int): CalendarDate {
    CalendarDate(b.year + age, b.month, b.day)
  }

  /** `getAge`: the years between the birth date and today, one less when
      this year's birthday is still to come; no birth date shows a dash.
      The result counts completed years: the birthday of that age has come
      and the next one has not. */
  function Age(birth: Option<CalendarDate>, today: CalendarDate): (a: Option<int>)
    ensures a.None? <==> birth.None?
    ensures a.Some? ==> DateLe(Anniversary(birth.value, a.value), today)
    ensures a.Some? ==> !DateLe(Anniversary(birth.value, a.value + 1), today)
  {
    match birth
    case None => None
    case Some(b) =>
      var age := today.year - b.year;
      var m := today.month - b.month;
      Some(if m < 0 || (m == 0 && today.day < b.day) then age - 1 else age)
  }

  /** Completed years determine the age: any count whose birthday has come
      and whose next birthday has not is the computed age. */
  lemma AgeUnique(b: CalendarDate, today: CalendarDate, n: int)
    requires DateLe(Anniversary(b, n), today) && !DateLe(Anniversary(b, n + 1), today)
    ensures Age(Some(b), today) == Some(n)
  {
  }

  /** Loading first, then the error, then a missing player. */
  function DashboardView(loading: bool, error: Option<string>, player: Option<PlayerProfile>): (v: View)
    ensures v == Spinner <==> loading
    ensures v.ErrorView? <==> !loading && Present(error)
    ensures v == EmptyView <==> !loading && !Present(error) && player.None?
    ensures v == Content ==> player.Some?
  {
    if loading then Spinner
    else if Present(error) then ErrorView(error.value)
    else if player.None? then EmptyView
    else Content
  }

  class PlayerDashboardScreen {
    var player: Option<PlayerProfile>
    var teams: seq<TeamRef>
    var loading: bool
    var error: Option<string>

    constructor ()
      ensures player.None? && teams == [] && loading && error.None?
    {
      player := None;
      teams := [];
      loading := true;
      error := None;
    }

    /** The loading effect, run only for a user with an id. A missing
        player row blocks access; a failed team query keeps the player but
        reports the error. */
    method Load(userId: Option<string>, playerReply: Reply<PlayerProfile>, teamsReply: Reply<seq<Option<TeamRef>>>)
      modifies this
      ensures !Present(userId) ==> player == old(player) && teams == old(teams) && loading == old(loading) && error == old(error)
      ensures Present(userId) ==> !loading
      ensures Present(userId) && !playerReply.Rows? ==>
                error == Some("Acceso bloqueado") && player == old(player) && teams == old(teams)
      ensures Present(userId) && playerReply.Rows? ==> player == Some(playerReply.data)
      ensures Present(userId) && playerReply.Rows? && teamsReply.Failed? ==>
                error == Some("No se pudieron cargar los equipos") && teams == old(teams)
      ensures Present(userId) && playerReply.Rows? && !teamsReply.Failed? ==>
                error.None? && teams == DedupBy(PresentTeams(teamsReply.DataOr([])), TeamId)
    {
      if !Present(userId) {
        return;
      }
      loading := true;
      error := None;
      if !playerReply.Rows? {
        error := Some("Acceso bloqueado");
        loading := false;
        return;
      }
      player := Some(playerReply.data);
      if teamsReply.Failed? {
        error := Some("No se pudieron cargar los equipos");
        loading := false;
        return;
      }
      teams := UniqueTeams(teamsReply.DataOr([]));
      loading := false;
    }

    function View(): View
      reads this
    {
      DashboardView(loading, error, player)
    }
  }
}
