/** The shared teams screen: every role's view of teams, the super admin's
    team creation and coach management, and the per-team expansion. */
module SharedTeams {
  import opened Common
  import opened TeamsPage

  /** A coach row as the code reads it: the coach's user id and
      `users_profile?.full_name`. */
  datatype CoachRow = CoachRow(coachUserId: string, profileName: Option<string>)

  /** A coach listed under a team. */
  datatype CoachEntry = CoachEntry(coachUserId: string, fullName: string)

  /** A coach row of the super admin's team query: the profile is joined
      under the alias `coach`, so the row has that field and no
      `users_profile` field. */
  datatype AliasedCoachRow = AliasedCoachRow(coachUserId: string, coach: Option<string>)

  /** A `teams` row of the super admin's query; the joined lists are `None`
      when they are not arrays. */
  datatype AdminTeamRow = AdminTeamRow(id: string, name: string, season: Option<string>,
                                       teamPlayers: Option<seq<Joined<PlayerRow>>>,
                                       teamCoaches: Option<seq<AliasedCoachRow>>)

  /** A listed team; only the super admin's teams carry a coach list. */
  datatype ListedTeam = ListedTeam(team: TeamWithPlayers, coaches: Option<seq<CoachEntry>>)

  /** `users_profile?.full_name ?? '—'`. */
  function CoachEntryOf(c: CoachRow): (e: CoachEntry)
    ensures e.coachUserId == c.coachUserId
    ensures c.profileName.Some? ==> e.fullName == c.profileName.value
    ensures c.profileName.None? ==> e.fullName == "—"
  {
    CoachEntry(c.coachUserId, c.profileName.GetOr("—"))
  }

  /** An aliased coach row read as the mapping reads it: through
      `users_profile`, which the row does not have, so the name is always
      the dash, whatever profile was joined. */
  function AdminCoachEntryOf(c: AliasedCoachRow): (e: CoachEntry)
    ensures e == CoachEntryOf(CoachRow(c.coachUserId, None))
    ensures e.coachUserId == c.coachUserId && e.fullName == "—"
  {
    CoachEntryOf(CoachRow(c.coachUserId, None))
  }

  /** A super admin's team: players flattened out of the joins with the
      missing ones dropped, one coach entry per coach row. */
  function AdminTeamOf(t: AdminTeamRow): (r: ListedTeam)
    ensures r.team.id == t.id && r.team.name == t.name && r.team.season == t.season
    ensures t.teamPlayers.None? ==> r.team.players == []
    ensures t.teamPlayers.Some? ==> r.team.players == Flatten(t.teamPlayers.value)
    ensures r.coaches.Some?
    ensures t.teamCoaches.None? ==> r.coaches.value == []
    ensures t.teamCoaches.Some? ==> |r.coaches.value| == |t.teamCoaches.value|
    ensures t.teamCoaches.Some? ==>
              forall i :: 0 <= i < |t.teamCoaches.value| ==> r.coaches.value[i] == AdminCoachEntryOf(t.teamCoaches.value[i])
  {
    var players := if t.teamPlayers.Some? then Flatten(t.teamPlayers.value) else [];
    var coaches := if t.teamCoaches.Some?
                   then seq(|t.teamCoaches.value|, i requires 0 <= i < |t.teamCoaches.value| => AdminCoachEntryOf(t.teamCoaches.value[i]))
                   else [];
    ListedTeam(TeamWithPlayers(t.id, t.name, t.season, players), Some(coaches))
  }

  function AdminTeams(rows: seq<AdminTeamRow>): (r: seq<ListedTeam>)
    ensures |r| == |rows|
    ensures forall i :: 0 <= i < |rows| ==> r[i] == AdminTeamOf(rows[i])
  {
    seq(|rows|, i requires 0 <= i < |rows| => AdminTeamOf(rows[i]))
  }

  /** As written, the coach list of every listed team names no coach:
      each entry keeps a coach's user id and shows the dash, even for a
      coach whose profile has a name. */
  lemma AdminCoachNamesLost(rows: seq<AdminTeamRow>)
    ensures forall k :: 0 <= k < |rows| ==>
              |AdminTeams(rows)[k].coaches.value| == |rows[k].teamCoaches.GetOr([])|
    ensures forall k, i :: 0 <= k < |rows| && 0 <= i < |AdminTeams(rows)[k].coaches.value| ==>
              AdminTeams(rows)[k].coaches.value[i] == CoachEntry(rows[k].teamCoaches.value[i].coachUserId, "—")
  {
    forall k | 0 <= k < |rows|
      ensures |AdminTeams(rows)[k].coaches.value| == |rows[k].teamCoaches.GetOr([])|
      ensures forall i :: 0 <= i < |AdminTeams(rows)[k].coaches.value| ==>
                AdminTeams(rows)[k].coaches.value[i] == CoachEntry(rows[k].teamCoaches.value[i].coachUserId, "—")
    {
      var t := AdminTeamOf(rows[k]);
      assert AdminTeams(rows)[k] == t;
      if rows[k].teamCoaches.None? {
        assert t.coaches.value == [];
      }
    }
  }

  function Unlisted(ts: seq<TeamWithPlayers>): (r: seq<ListedTeam>)
    ensures |r| == |ts|
    ensures forall i :: 0 <= i < |ts| ==> r[i] == ListedTeam(ts[i], None)
  {
    seq(|ts|, i requires 0 <= i < |ts| => ListedTeam(ts[i], None))
  }

  /** The parent's teams: the strict grouping. The second filter of the
      code (on an undefined id or name) keeps every group, since every
      group has a non-empty id and name. */
  lemma ParentGroupsHaveIdAndName(rows: seq<Membership>)
    ensures forall j :: 0 <= j < |Grouped(Kept(rows, true))| ==>
              Grouped(Kept(rows, true))[j].id != "" && Grouped(Kept(rows, true))[j].name != ""
  {
    var pairs := Kept(rows, true);
    var d := DedupBy(pairs, PairTeamId);
    forall j | 0 <= j < |d| ensures d[j].team.id != "" && d[j].team.name != "" {
      DedupByKeepsFirst(pairs, PairTeamId, j);
      var i := IndexOf(KeysOf(pairs, PairTeamId), PairTeamId(d[j]));
      KeptMembers(rows, true, pairs[i]);
    }
  }

  /** The screen's loading state. */
  datatype LoadState = LoadState(teams: seq<ListedTeam>, loading: bool, error: Option<string>)

  /** `loadTeams` as written: super admin, coach and parent each settle;
      any other role leaves the screen loading, since no branch clears the
      flag. */
  function SharedLoad(prev: seq<ListedTeam>, role: Option<Role>,
                      adminReply: Reply<seq<AdminTeamRow>>, coachReply: Reply<seq<Joined<TeamRow>>>,
                      parentReply: Reply<seq<Membership>>): (s: LoadState)
    ensures !s.loading <==> role in {Some(SuperAdmin), Some(Coach), Some(Parent)}
    ensures s.error.Some? <==> (role == Some(SuperAdmin) && adminReply.Failed?) || (role == Some(Coach) && coachReply.Failed?)
    ensures s.error.Some? ==> s.error.value == "Error loading teams" && s.teams == prev
    ensures role == Some(SuperAdmin) && !adminReply.Failed? ==> s.teams == AdminTeams(adminReply.DataOr([]))
    ensures role == Some(Coach) && !coachReply.Failed? ==> s.teams == Unlisted(CoachTeams(coachReply.DataOr([])))
    ensures role == Some(Parent) ==> s.teams == (if parentReply.Rows? then Unlisted(Grouped(Kept(parentReply.data, true))) else [])
    ensures s.loading ==> s.teams == prev && s.error.None?
  {
    match role
    case Some(SuperAdmin) =>
      if adminReply.Failed? then LoadState(prev, false, Some("Error loading teams"))
      else LoadState(AdminTeams(adminReply.DataOr([])), false, None)
    case Some(Coach) =>
      if coachReply.Failed? then LoadState(prev, false, Some("Error loading teams"))
      else LoadState(Unlisted(CoachTeams(coachReply.DataOr([]))), false, None)
    case Some(Parent) =>
      if parentReply.Rows? then LoadState(Unlisted(Grouped(Kept(parentReply.data, true))), false, None)
      else LoadState([], false, None)
    case _ => LoadState(prev, true, None)
  }

  /** The loading effect: `loadTeams` runs only for a user with an id and a
      role; otherwise the state stays as it is. */
  function LoadEffect(state: LoadState, userId: Option<string>, role: Option<Role>,
                      adminReply: Reply<seq<AdminTeamRow>>, coachReply: Reply<seq<Joined<TeamRow>>>,
                      parentReply: Reply<seq<Membership>>): (s: LoadState)
    ensures !LoadRuns(userId, role) ==> s == state
    ensures LoadRuns(userId, role) ==> s == SharedLoad(state.teams, role, adminReply, coachReply, parentReply)
  {
    if LoadRuns(userId, role) then SharedLoad(state.teams, role, adminReply, coachReply, parentReply) else state
  }

  /** A club or center admin never leaves the spinner: not when the load
      runs, and not from the screen's first state, whether or not the
      effect runs. */
  lemma OtherRolesSpinForever(prev: seq<ListedTeam>, userId: Option<string>, adminReply: Reply<seq<AdminTeamRow>>,
                              coachReply: Reply<seq<Joined<TeamRow>>>, parentReply: Reply<seq<Membership>>)
    ensures SharedLoad(prev, Some(ClubAdmin), adminReply, coachReply, parentReply).loading
    ensures var s := LoadEffect(LoadState([], true, None), userId, Some(ClubAdmin), adminReply, coachReply, parentReply);
            s.loading && SharedTeamsView(s.loading, s.error, s.teams, Some(ClubAdmin)) == Loading
  {
  }

  /** The evidently intended `loadTeams`: other roles get an empty list and
      the spinner stops, as on the coach and parent teams screen. */
  function SharedLoadIntended(prev: seq<ListedTeam>, role: Option<Role>,
                              adminReply: Reply<seq<AdminTeamRow>>, coachReply: Reply<seq<Joined<TeamRow>>>,
                              parentReply: Reply<seq<Membership>>): (s: LoadState)
    ensures !s.loading
    ensures role in {Some(SuperAdmin), Some(Coach), Some(Parent)} ==>
              s == SharedLoad(prev, role, adminReply, coachReply, parentReply)
    ensures role !in {Some(SuperAdmin), Some(Coach), Some(Parent)} ==> s == LoadState([], false, None)
  {
    if role in {Some(SuperAdmin), Some(Coach), Some(Parent)} then SharedLoad(prev, role, adminReply, coachReply, parentReply)
    else LoadState([], false, None)
  }

  /** The loading effect runs only for a user with an id and a role. */
  predicate LoadRuns(userId: Option<string>, role: Option<Role>) {
    Present(userId) && role.Some?
  }

  /** The redirect of a player away from this screen. */
  function PlayerRedirect(role: Option<Role>): (r: Option<Redirect>)
    ensures r.Some? <==> role == Some(Player)
    ensures r.Some? ==> r.value == Redirect("/player/dashboard", true)
  {
    if role == Some(Player) then Some(Redirect("/player/dashboard", true)) else None
  }

  /** The expansion toggle: the clicked team closes if open and opens
      otherwise. */
  function Toggle(expanded: Option<string>, teamId: string): (r: Option<string>)
    ensures r == Some(teamId) <==> expanded != Some(teamId)
    ensures r != Some(teamId) ==> r.None?
  {
    if expanded == Some(teamId) then None else Some(teamId)
  }

  /** Coaches are fetched exactly when a super admin opens a team. */
  function CoachFetchOnToggle(expanded: Option<string>, teamId: string, role: Option<Role>): (r: Option<string>)
    ensures r.Some? <==> role == Some(SuperAdmin) && Toggle(expanded, teamId) == Some(teamId)
    ensures r.Some? ==> r.value == teamId
  {
    if expanded != Some(teamId) && role == Some(SuperAdmin) then Some(teamId) else None
  }

  /** Clicking the same team twice returns to the state before when that
      team was open or nothing was open; from another open team it closes
      everything. */
  lemma ToggleTwice(expanded: Option<string>, teamId: string)
    ensures Toggle(Toggle(expanded, teamId), teamId) == (if expanded == Some(teamId) || expanded.None? then expanded else None)
  {
  }

  /** What the screen shows. */
  datatype SharedView = Loading | Failure(message: string) | AdminEmpty | ParentEmpty | PlainEmpty | TeamList

  function SharedTeamsView(loading: bool, error: Option<string>, teams: seq<ListedTeam>, role: Option<Role>): (v: SharedView)
    ensures v == Loading <==> loading
    ensures v.Failure? <==> !loading && Present(error)
    ensures v == TeamList <==> !loading && !Present(error) && |teams| > 0
    ensures v == AdminEmpty <==> !loading && !Present(error) && |teams| == 0 && role == Some(SuperAdmin)
    ensures v == ParentEmpty <==> !loading && !Present(error) && |teams| == 0 && role == Some(Parent)
  {
    if loading then Loading
    else if Present(error) then Failure(error.value)
    else if |teams| == 0 then
      (if role == Some(SuperAdmin) then AdminEmpty else if role == Some(Parent) then ParentEmpty else PlainEmpty)
    else TeamList
  }

  class SharedTeamsScreen {
    var teams: seq<ListedTeam>
    var loading: bool
    var error: Option<string>
    var teamCoaches: map<string, seq<CoachRow>>
    var expandedTeamId: Option<string>
    var clubId: string
    var name: string
    var season: string
    var openCreate: bool
    var creating: bool

    constructor ()
      ensures teams == [] && loading && error.None? && teamCoaches == map[] && expandedTeamId.None?
      ensures clubId == "" && name == "" && season == "" && !openCreate && !creating
    {
      teams := [];
      loading := true;
      error := None;
      teamCoaches := map[];
      expandedTeamId := None;
      clubId := "";
      name := "";
      season := "";
      openCreate := false;
      creating := false;
    }

    /** `loadTeams`, as written. */
    method LoadTeams(role: Option<Role>, adminReply: Reply<seq<AdminTeamRow>>,
                     coachReply: Reply<seq<Joined<TeamRow>>>, parentReply: Reply<seq<Membership>>)
      modifies this`teams, this`loading, this`error
      ensures LoadState(teams, loading, error) == SharedLoad(old(teams), role, adminReply, coachReply, parentReply)
      ensures teamCoaches == old(teamCoaches) && expandedTeamId == old(expandedTeamId)
      ensures clubId == old(clubId) && name == old(name) && season == old(season)
      ensures openCreate == old(openCreate) && creating == old(creating)
    {
      ghost var expected := SharedLoad(teams, role, adminReply, coachReply, parentReply);
      loading := true;
      error := None;
      if role == Some(SuperAdmin) {
        if adminReply.Failed? {
          error := Some("Error loading teams");
        } else {
          teams := AdminTeams(adminReply.DataOr([]));
        }
        loading := false;
        assert LoadState(teams, loading, error) == expected;
        return;
      }
      if role == Some(Coach) {
        if coachReply.Failed? {
          error := Some("Error loading teams");
        } else {
          teams := Unlisted(CoachTeams(coachReply.DataOr([])));
        }
        loading := false;
        assert LoadState(teams, loading, error) == expected;
        return;
      }
      if role == Some(Parent) {
        if !parentReply.Rows? {
          teams := [];
          loading := false;
          return;
        }
        var grouped := GroupByTeam(parentReply.data, true);
        teams := Unlisted(grouped);
        loading := false;
      }
    }

    /** `loadTeamCoaches`: the team's entry is replaced (an error yields no
        data, hence an empty list); the other teams' entries stay. */
    method LoadTeamCoaches(teamId: string, reply: Reply<seq<CoachRow>>)
      modifies this`teamCoaches
      ensures teamCoaches == old(teamCoaches)[teamId := reply.DataOr([])]
      ensures teams == old(teams) && loading == old(loading) && error == old(error) && expandedTeamId == old(expandedTeamId)
    {
      teamCoaches := teamCoaches[teamId := reply.DataOr([])];
    }

    /** `createTeam`: nothing happens unless club, name and season are all
        filled; a rejected insert keeps the form; a successful one clears
        and closes it and asks for the teams to be reloaded. */
    method CreateTeam(insert: Ack) returns (reload: bool)
      modifies this`clubId, this`name, this`season, this`openCreate, this`creating
      ensures !(old(clubId) != "" && old(name) != "" && old(season) != "") ==>
                !reload && clubId == old(clubId) && name == old(name) && season == old(season) &&
                openCreate == old(openCreate) && creating == old(creating)
      ensures old(clubId) != "" && old(name) != "" && old(season) != "" ==> !creating
      ensures old(clubId) != "" && old(name) != "" && old(season) != "" && insert.Rejected? ==>
                !reload && clubId == old(clubId) && name == old(name) && season == old(season) && openCreate == old(openCreate)
      ensures old(clubId) != "" && old(name) != "" && old(season) != "" && insert.Done? ==>
                reload && clubId == "" && name == "" && season == "" && !openCreate
      ensures teams == old(teams) && loading == old(loading) && error == old(error)
      ensures teamCoaches == old(teamCoaches) && expandedTeamId == old(expandedTeamId)
    {
      if clubId == "" || name == "" || season == "" {
        return false;
      }
      creating := true;
      creating := false;
      if insert.Rejected? {
        return false;
      }
      clubId := "";
      name := "";
      season := "";
      openCreate := false;
      reload := true;
    }

    /** A click on a team's chevron; returns the team whose coaches are then
        fetched, if any. */
    method ToggleTeam(teamId: string, role: Option<Role>) returns (fetchCoachesOf: Option<string>)
      modifies this`expandedTeamId
      ensures expandedTeamId == Toggle(old(expandedTeamId), teamId)
      ensures fetchCoachesOf == CoachFetchOnToggle(old(expandedTeamId), teamId, role)
      ensures teams == old(teams) && loading == old(loading) && error == old(error) && teamCoaches == old(teamCoaches)
    {
      fetchCoachesOf := CoachFetchOnToggle(expandedTeamId, teamId, role);
      expandedTeamId := Toggle(expandedTeamId, teamId);
    }

    function View(role: Option<Role>): SharedView
      reads this
    {
      SharedTeamsView(loading, error, teams, role)
    }
  }
}
