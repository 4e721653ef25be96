/** The super admin's player list: every player with its club, its first
    team and whether its access is active, and a form that creates a player
    in a club and optionally assigns it to one of that club's teams. */
module AdminPlayers {
  import opened Common

  datatype ClubRef = ClubRef(id: string, name: string)
  datatype TeamRef = TeamRef(id: string, name: string)

  /** A `teams` row for the form. */
  datatype TeamOption = TeamOption(id: string, name: string, clubId: string)

  /** A player as fetched: the club may come back as an object, a list or
      null, and so may the team of each membership; the memberships
      themselves are `None` when they are not a list. */
  datatype RawPlayer = RawPlayer(
    id: string, fullName: string, birthDate: string, userId: Option<string>,
    club: Joined<ClubRef>, memberships: Option<seq<Joined<TeamRef>>>)

  /** A player after normalisation: at most one club, and one optional team
      per membership. */
  datatype AdminPlayer = AdminPlayer(
    id: string, fullName: string, birthDate: string, userId: Option<string>,
    club: Option<ClubRef>, teams: seq<Option<TeamRef>>)

  function Normalised(p: RawPlayer): (n: AdminPlayer)
    ensures n.id == p.id && n.fullName == p.fullName && n.birthDate == p.birthDate && n.userId == p.userId
    ensures n.club == FirstOf(p.club)
    ensures p.memberships.None? ==> n.teams == []
    ensures p.memberships.Some? ==> |n.teams| == |p.memberships.value|
    ensures p.memberships.Some? ==> forall i :: 0 <= i < |n.teams| ==> n.teams[i] == FirstOf(p.memberships.value[i])
  {
    var teams := match p.memberships
      case None => []
      case Some(ms) => seq(|ms|, i requires 0 <= i < |ms| => FirstOf(ms[i]));
    AdminPlayer(p.id, p.fullName, p.birthDate, p.userId, FirstOf(p.club), teams)
  }

  function NormalisedAll(ps: seq<RawPlayer>): (r: seq<AdminPlayer>)
    ensures |r| == |ps|
    ensures forall i :: 0 <= i < |ps| ==> r[i] == Normalised(ps[i])
  {
    seq(|ps|, i requires 0 <= i < |ps| => Normalised(ps[i]))
  }

  /** Normalising twice changes nothing more: a normalised player read back
      as a raw one (its club as an object, each team as an object or null)
      normalises to itself. */
  function AsRaw(n: AdminPlayer): RawPlayer {
    RawPlayer(n.id, n.fullName, n.birthDate, n.userId,
      if n.club.Some? then JOne(n.club.value) else JNull,
      Some(seq(|n.teams|, i requires 0 <= i < |n.teams| => if n.teams[i].Some? then JOne(n.teams[i].value) else JNull)))
  }

  lemma NormalisedFixpoint(n: AdminPlayer)
    ensures Normalised(AsRaw(n)) == n
  {
    var m := Normalised(AsRaw(n));
    assert |m.teams| == |n.teams|;
    assert forall i :: 0 <= i < |n.teams| ==> m.teams[i] == n.teams[i];
  }

  /** The team line: the first membership's team name, or 'Sin equipo'. */
  function TeamName(p: AdminPlayer): (name: string)
    ensures |p.teams| > 0 && p.teams[0].Some? ==> name == p.teams[0].value.name
    ensures !(|p.teams| > 0 && p.teams[0].Some?) ==> name == "Sin equipo"
  {
    if |p.teams| > 0 && p.teams[0].Some? then p.teams[0].value.name else "Sin equipo"
  }

  /** The club line: the club's name, or '—'. */
  function ClubName(p: AdminPlayer): (name: string)
    ensures p.club.Some? ==> name == p.club.value.name
    ensures p.club.None? ==> name == "—"
  {
    if p.club.Some? then p.club.value.name else "—"
  }

  /** Whether the access is shown as active. */
  predicate HasAccess(p: AdminPlayer) {
    Present(p.userId)
  }

  /** The team choices of the form: the teams of the selected club, in
      their order. */
  function TeamOptions(teams: seq<TeamOption>, clubId: string): (r: seq<TeamOption>)
    ensures forall t :: t in r <==> t in teams && t.clubId == clubId
    ensures |r| <= |teams|
    decreases |teams|
  {
    if |teams| == 0 then []
    else
      var init := teams[..|teams| - 1];
      var last := teams[|teams| - 1];
      assert teams == init + [last];
      TeamOptions(init, clubId) + (if last.clubId == clubId then [last] else [])
  }

  /** The options keep the teams' order and repetitions: filtering a
      concatenation concatenates the filtered parts. */
  lemma {:induction false} TeamOptionsAppend(a: seq<TeamOption>, b: seq<TeamOption>, clubId: string)
    ensures TeamOptions(a + b, clubId) == TeamOptions(a, clubId) + TeamOptions(b, clubId)
    decreases |b|
  {
    if |b| > 0 {
      var init := b[..|b| - 1];
      assert a + b == (a + init) + [b[|b| - 1]];
      TeamOptionsAppend(a, init, clubId);
    } else {
      assert a + b == a;
    }
  }

  /** Choosing the options for one club and then for another gives nothing
      for the second when the clubs differ: a team belongs to one club. */
  lemma TeamOptionsDisjoint(teams: seq<TeamOption>, c1: string, c2: string)
    requires c1 != c2
    ensures forall t :: t in TeamOptions(teams, c1) ==> t !in TeamOptions(teams, c2)
  {
  }

  /** The screen's guard: a known role other than the super admin is sent
      home. */
  function Guard(role: Option<Role>): (r: Option<Redirect>)
    ensures r.Some? <==> role.Some? && role != Some(SuperAdmin)
    ensures r.Some? ==> r.value == Redirect("/home", true)
  {
    if role.Some? && role != Some(SuperAdmin) then Some(Redirect("/home", true)) else None
  }

  /** The form's submission is attempted only with a club, a name and a
      birth date. */
  predicate CanCreate(clubId: string, fullName: string, birthDate: string) {
    clubId != "" && fullName != "" && birthDate != ""
  }

  /** The team assignment after a player was created: only with a team
      chosen, and never for the text 'undefined' on either side. */
  function AssignmentOf(playerId: string, teamId: string): (r: Option<(string, string)>)
    ensures r.Some? <==> teamId != "" && playerId != "" && playerId != "undefined" && teamId != "undefined"
    ensures r.Some? ==> r.value == (playerId, teamId)
  {
    if teamId == "" then None
    else if playerId == "" || playerId == "undefined" || teamId == "undefined" then None
    else Some((playerId, teamId))
  }

  class PlayersAdminScreen {
    var role: Option<Role>
    var clubs: seq<ClubRef>
    var teams: seq<TeamOption>
    var players: seq<AdminPlayer>
    var loading: bool
    var openCreate: bool
    var clubId: string
    var teamId: string
    var fullName: string
    var birthDate: string
    var creating: bool

    constructor (role: Option<Role>)
      ensures this.role == role && clubs == [] && teams == [] && players == [] && loading
      ensures !openCreate && clubId == "" && teamId == "" && fullName == "" && birthDate == "" && !creating
    {
      this.role := role;
      clubs := [];
      teams := [];
      players := [];
      loading := true;
      openCreate := false;
      clubId := "";
      teamId := "";
      fullName := "";
      birthDate := "";
      creating := false;
    }

    /** The load effect, for the super admin only: clubs and teams default
        to empty lists, and the players to an empty list when their query
        fails (the error is only logged). */
    method Load(clubsReply: Reply<seq<ClubRef>>, teamsReply: Reply<seq<TeamOption>>, playersReply: Reply<seq<RawPlayer>>)
      modifies this`clubs, this`teams, this`players, this`loading
      ensures role != Some(SuperAdmin) ==>
                clubs == old(clubs) && teams == old(teams) && players == old(players) && loading == old(loading)
      ensures role == Some(SuperAdmin) ==>
                clubs == clubsReply.DataOr([]) && teams == teamsReply.DataOr([]) &&
                players == NormalisedAll(playersReply.DataOr([])) && !loading
      ensures role == old(role) && clubId == old(clubId) && teamId == old(teamId) && openCreate == old(openCreate)
    {
      if role != Some(SuperAdmin) {
        return;
      }
      loading := true;
      clubs := clubsReply.DataOr([]);
      teams := teamsReply.DataOr([]);
      players := NormalisedAll(playersReply.DataOr([]));
      loading := false;
    }

    /** Choosing a club clears the chosen team. */
    method SelectClub(id: string)
      modifies this`clubId, this`teamId
      ensures clubId == id && teamId == ""
    {
      clubId := id;
      teamId := "";
    }

    /** The team choices currently offered. */
    function Options(): (r: seq<TeamOption>)
      reads this
      ensures forall t :: t in r ==> t.clubId == clubId
    {
      TeamOptions(teams, clubId)
    }

    /** `createPlayer`. The player is created through a remote procedure
        that returns its id; on success it is assigned to the chosen team
        (a failed assignment is only logged), the fields are cleared and
        the list reloaded. The form stays open. */
    method CreatePlayer(created: Reply<string>, reload: Reply<seq<RawPlayer>>)
      returns (request: Option<(string, string, string)>, assignment: Option<(string, string)>)
      modifies this`clubId, this`teamId, this`fullName, this`birthDate, this`creating, this`players
      ensures request.Some? <==> CanCreate(old(clubId), old(fullName), old(birthDate))
      ensures request.Some? ==> request.value == (old(fullName), old(birthDate), old(clubId))
      ensures assignment.Some? <==> request.Some? && created.Rows? && created.data != "" && AssignmentOf(created.data, old(teamId)).Some?
      ensures assignment.Some? ==> assignment == AssignmentOf(created.data, old(teamId))
      ensures request.Some? && created.Rows? && created.data != "" ==>
                clubId == "" && teamId == "" && fullName == "" && birthDate == "" && !creating &&
                players == NormalisedAll(reload.DataOr([]))
      ensures !(request.Some? && created.Rows? && created.data != "") ==>
                clubId == old(clubId) && teamId == old(teamId) && fullName == old(fullName) &&
                birthDate == old(birthDate) && players == old(players)
      ensures request.Some? ==> !creating
      ensures request.None? ==> creating == old(creating)
      ensures openCreate == old(openCreate) && role == old(role)
    {
      request := None;
      assignment := None;
      if !CanCreate(clubId, fullName, birthDate) {
        return;
      }
      request := Some((fullName, birthDate, clubId));
      creating := true;
      if !created.Rows? || created.data == "" {
        creating := false;
        return;
      }
      assignment := AssignmentOf(created.data, teamId);
      clubId := "";
      teamId := "";
      fullName := "";
      birthDate := "";
      creating := false;
      players := NormalisedAll(reload.DataOr([]));
    }
  }
}
