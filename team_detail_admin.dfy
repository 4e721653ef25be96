/** The administrative team detail screen: the team and its roster, the
    panel that lists the club's players not yet in the team, assigning,
    removing and creating players, and activating a player's access. */
module TeamDetailAdmin {
  import opened Common

  /** The id that stands in for an empty exclusion list. */
  const NoPlayerId: string := "00000000-0000-0000-0000-000000000000"

  datatype Team = Team(id: string, name: string, season: Option<string>, clubId: string)

  /** A `players` row. */
  datatype PlayerRecord = PlayerRecord(id: string, fullName: string, birthDate: Option<string>, userId: Option<string>)

  // ---------------------------------------------------------------------
  // Permissions
  // ---------------------------------------------------------------------

  /** The role this screen checks: a global `userRole` when one is set,
      otherwise the super admin. Nothing in the application sets it. */
  function ScreenRole(globalRole: Option<string>): (r: string)
    ensures Present(globalRole) ==> r == globalRole.value
    ensures !Present(globalRole) ==> r == "super_admin"
  {
    if Present(globalRole) then globalRole.value else "super_admin"
  }

  predicate CanEditTeam(role: string) {
    role == "super_admin" || role == "coach"
  }

  predicate CanActivateAccess(role: string) {
    role == "super_admin" || role == "parent"
  }

  /** Without a global role every user gets every permission of the
      screen, whatever role the authentication context holds. */
  lemma DefaultRoleGrantsAll()
    ensures CanEditTeam(ScreenRole(None)) && CanActivateAccess(ScreenRole(None))
    ensures CanEditTeam(ScreenRole(Some(""))) && CanActivateAccess(ScreenRole(Some("")))
  {
  }

  // ---------------------------------------------------------------------
  // The roster
  // ---------------------------------------------------------------------

  /** The columns the roster query selects: id, name and birth date; the
      user id is not among them, so it reads as undefined. */
  function SelectedAsWritten(p: PlayerRecord): (r: PlayerRecord)
    ensures r.id == p.id && r.fullName == p.fullName && r.birthDate == p.birthDate
    ensures r.userId.None?
  {
    p.(userId := None)
  }

  /** The entries one joined value contributes to the roster: a null
      stays a null entry. */
  function Entries(j: Joined<PlayerRecord>): (r: seq<Option<PlayerRecord>>)
    ensures forall p :: Some(p) in r <==> p in AsList(j)
    ensures None in r <==> j.JNull?
  {
    match j
    case JNull => [None]
    case JOne(p) => [Some(p)]
    case JMany(ps) =>
      var r := seq(|ps|, i requires 0 <= i < |ps| => Some(ps[i]));
      assert forall p :: p in ps ==> Some(p) in r by {
        forall p | p in ps ensures Some(p) in r {
          var i :| 0 <= i < |ps| && ps[i] == p;
          assert r[i] == Some(p);
        }
      }
      r
  }

  /** `flatMap(item => item.player)`: a list is spliced in, an object kept,
      and a null kept as a null entry. Its players are those of the
      flattened list, and it has a null entry exactly when a join was
      null. */
  function Roster(items: seq<Joined<PlayerRecord>>): (r: seq<Option<PlayerRecord>>)
    ensures forall p :: Some(p) in r <==> p in Flatten(items)
    ensures None in r <==> JNull in items
    decreases |items|
  {
    if |items| == 0 then []
    else
      var init := items[..|items| - 1];
      var last := items[|items| - 1];
      assert items == init + [last];
      Roster(init) + Entries(last)
  }

  /** Whether a roster entry offers "Activate access". */
  predicate OffersActivation(p: PlayerRecord, canActivate: bool) {
    !Present(p.userId) && canActivate
  }

  /** The columns a query returns, applied to every player of every join. */
  function SelectJoined(j: Joined<PlayerRecord>, select: PlayerRecord -> PlayerRecord): (r: Joined<PlayerRecord>)
    ensures AsList(r) == seq(|AsList(j)|, i requires 0 <= i < |AsList(j)| => select(AsList(j)[i]))
  {
    match j
    case JNull => JNull
    case JOne(p) => JOne(select(p))
    case JMany(ps) => JMany(seq(|ps|, i requires 0 <= i < |ps| => select(ps[i])))
  }

  function SelectAll(items: seq<Joined<PlayerRecord>>, select: PlayerRecord -> PlayerRecord): (r: seq<Joined<PlayerRecord>>)
    ensures |r| == |items|
    ensures forall k :: 0 <= k < |items| ==> r[k] == SelectJoined(items[k], select)
  {
    seq(|items|, k requires 0 <= k < |items| => SelectJoined(items[k], select))
  }

  /** A player is in the selected roster exactly when it is the selection
      of a player of the team. */
  lemma {:induction false} SelectAllMembers(items: seq<Joined<PlayerRecord>>, select: PlayerRecord -> PlayerRecord, p: PlayerRecord)
    ensures p in Flatten(SelectAll(items, select)) <==> exists q :: q in Flatten(items) && select(q) == p
  {
    var sel := SelectAll(items, select);
    FlattenMembers(sel, p);
    if p in Flatten(sel) {
      var k :| 0 <= k < |sel| && p in AsList(sel[k]);
      var i :| 0 <= i < |AsList(sel[k])| && AsList(sel[k])[i] == p;
      var q := AsList(items[k])[i];
      FlattenMembers(items, q);
      assert q in Flatten(items) && select(q) == p;
    }
    if exists q :: q in Flatten(items) && select(q) == p {
      var q :| q in Flatten(items) && select(q) == p;
      FlattenMembers(items, q);
      var k :| 0 <= k < |items| && q in AsList(items[k]);
      var i :| 0 <= i < |AsList(items[k])| && AsList(items[k])[i] == q;
      assert AsList(sel[k])[i] == p;
    }
  }

  /** The roster the screen renders, as written: the joined players with
      only the selected columns. */
  function RosterAsWritten(items: seq<Joined<PlayerRecord>>): (r: seq<Option<PlayerRecord>>)
    ensures r == Roster(SelectAll(items, SelectedAsWritten))
  {
    Roster(SelectAll(items, SelectedAsWritten))
  }

  /** As written, every player of the team appears in the roster without a
      user id, so with a role allowed to activate every entry offers
      activation, also one whose access is already active. */
  lemma ActivationOfferedToAll(items: seq<Joined<PlayerRecord>>, role: string)
    requires CanActivateAccess(role)
    ensures forall q :: q in Flatten(items) ==> Some(SelectedAsWritten(q)) in RosterAsWritten(items)
    ensures forall p :: Some(p) in RosterAsWritten(items) ==> OffersActivation(p, CanActivateAccess(role))
  {
    forall q | q in Flatten(items) ensures Some(SelectedAsWritten(q)) in RosterAsWritten(items) {
      SelectAllMembers(items, SelectedAsWritten, SelectedAsWritten(q));
    }
    forall p | Some(p) in RosterAsWritten(items) ensures OffersActivation(p, CanActivateAccess(role)) {
      SelectAllMembers(items, SelectedAsWritten, p);
    }
  }

  /** A concrete case: a player with a linked user is still offered it. */
  lemma ActivationOfferedToActivePlayer()
    ensures var p := PlayerRecord("p", "Ana", None, Some("u"));
            !OffersActivation(p, true) && OffersActivation(SelectedAsWritten(p), true) &&
            RosterAsWritten([JOne(p)]) == [Some(SelectedAsWritten(p))]
  {
    var p := PlayerRecord("p", "Ana", None, Some("u"));
    assert SelectAll([JOne(p)], SelectedAsWritten) == [JOne(SelectedAsWritten(p))];
    var items := [JOne(SelectedAsWritten(p))];
    assert items[..0] == [];
    assert Roster(items) == Roster([]) + Entries(JOne(SelectedAsWritten(p)));
  }

  /** The evidently intended roster row selects the user id as well. */
  function SelectedIntended(p: PlayerRecord): (r: PlayerRecord)
    ensures r.id == p.id && r.fullName == p.fullName && r.birthDate == p.birthDate
    ensures r.userId == p.userId
  {
    p
  }

  /** With it, the roster entries that offer activation are exactly the
      team's players without access, and only for a role allowed to
      activate. */
  lemma ActivationOfferedExactly(items: seq<Joined<PlayerRecord>>, role: string)
    ensures forall p :: Some(p) in Roster(SelectAll(items, SelectedIntended)) && OffersActivation(p, CanActivateAccess(role)) <==>
              p in Flatten(items) && !Present(p.userId) && CanActivateAccess(role)
  {
    forall p ensures Some(p) in Roster(SelectAll(items, SelectedIntended)) <==> p in Flatten(items) {
      SelectAllMembers(items, SelectedIntended, p);
    }
  }

  // ---------------------------------------------------------------------
  // Available players
  // ---------------------------------------------------------------------

  /** The text of the `not in` filter: between parentheses, the team's
      player ids separated by commas, or the placeholder id when that join
      is empty. */
  function ExclusionText(teamIds: seq<string>): (s: string)
    ensures |s| >= 2 && s[0] == '(' && s[|s| - 1] == ')'
    ensures s[1..|s| - 1] != ""
    ensures Join(teamIds, ',') != "" ==> s[1..|s| - 1] == Join(teamIds, ',')
    ensures Join(teamIds, ',') == "" ==> s[1..|s| - 1] == NoPlayerId
  {
    var inner := if Join(teamIds, ',') != "" then Join(teamIds, ',') else NoPlayerId;
    var s := "(" + inner + ")";
    assert s[1..|s| - 1] == inner;
    s
  }

  /** For a team with players whose ids hold no comma, the text between the
      parentheses reads back as exactly those ids; for a team without
      players it names only the placeholder. */
  lemma ExclusionTextRoundTrip(teamIds: seq<string>)
    requires forall i :: 0 <= i < |teamIds| ==> ',' !in teamIds[i]
    ensures var s := ExclusionText(teamIds);
            |teamIds| >= 1 && Join(teamIds, ',') != "" ==> Split(s[1..|s| - 1], ',') == teamIds
    ensures var s := ExclusionText(teamIds);
            |teamIds| == 0 ==> Split(s[1..|s| - 1], ',') == [NoPlayerId]
  {
    if |teamIds| >= 1 {
      SplitJoin(teamIds, ',');
    } else {
      SplitWhole(NoPlayerId, ',');
    }
  }

  /** The available list after a player was added to the team. */
  function WithoutPlayer(available: seq<PlayerRecord>, playerId: string): (r: seq<PlayerRecord>)
    ensures forall p :: p in r <==> p in available && p.id != playerId
    ensures |r| <= |available|
    decreases |available|
  {
    if |available| == 0 then []
    else
      var init := available[..|available| - 1];
      var last := available[|available| - 1];
      assert available == init + [last];
      WithoutPlayer(init, playerId) + (if last.id != playerId then [last] else [])
  }

  /** The filter keeps the order and the repetitions of the other
      players: filtering a concatenation concatenates the filtered parts. */
  lemma {:induction false} WithoutPlayerAppend(a: seq<PlayerRecord>, b: seq<PlayerRecord>, playerId: string)
    ensures WithoutPlayer(a + b, playerId) == WithoutPlayer(a, playerId) + WithoutPlayer(b, playerId)
    decreases |b|
  {
    if |b| > 0 {
      var init := b[..|b| - 1];
      assert a + b == (a + init) + [b[|b| - 1]];
      WithoutPlayerAppend(a, init, playerId);
    } else {
      assert a + b == a;
    }
  }

  /** The row `createPlayer` inserts. */
  datatype NewPlayer = NewPlayer(fullName: string, birthDate: Option<string>, clubId: string)

  /** The reply of the access function: a network failure, or the status
      and the `error` field of its body. */
  datatype ActivationReply = FetchThrows | Response(ok: bool, error: Option<string>)

  /** The message shown when activation fails, or `None` on success. */
  function ActivationError(reply: ActivationReply): (m: Option<string>)
    ensures m.None? <==> reply.Response? && reply.ok && !Present(reply.error)
    ensures reply.Response? && Present(reply.error) ==> m == reply.error
    ensures m.Some? && !(reply.Response? && Present(reply.error)) ==> m == Some("Failed to activate access")
  {
    match reply
    case FetchThrows => Some("Failed to activate access")
    case Response(ok, error) =>
      if !ok || Present(error) then
        (if Present(error) then error else Some("Failed to activate access"))
      else None
  }

  datatype TeamView = Loading | Failure(message: string) | Shown(team: Team)

  class TeamDetailScreen {
    var role: string
    var team: Option<Team>
    var players: seq<Option<PlayerRecord>>
    var loading: bool
    var error: Option<string>
    var showAddPlayer: bool
    var available: seq<PlayerRecord>
    var loadingPlayers: bool
    var newPlayerName: string
    var newBirthDate: string
    var creatingPlayer: bool
    var showActivateModal: bool
    var activateEmail: string
    var activatePassword: string
    var activating: bool

    constructor (globalRole: Option<string>)
      ensures role == ScreenRole(globalRole) && team.None? && players == [] && loading && error.None?
      ensures !showAddPlayer && available == [] && !loadingPlayers && newPlayerName == "" && newBirthDate == ""
      ensures !creatingPlayer && !showActivateModal && activateEmail == "" && activatePassword == "" && !activating
    {
      role := ScreenRole(globalRole);
      team := None;
      players := [];
      loading := true;
      error := None;
      showAddPlayer := false;
      available := [];
      loadingPlayers := false;
      newPlayerName := "";
      newBirthDate := "";
      creatingPlayer := false;
      showActivateModal := false;
      activateEmail := "";
      activatePassword := "";
      activating := false;
    }

    function View(): (v: TeamView)
      reads this
      ensures v.Failure? <==> !loading && (error.Some? || team.None?)
      ensures v.Failure? ==> v.message == error.GetOr("Team not found")
    {
      if loading then Loading
      else if error.Some? || team.None? then Failure(error.GetOr("Team not found"))
      else Shown(team.value)
    }

    /** The load effect for a non-empty team id. A failed team query ends
        with an error; otherwise the team is kept and the roster replaced
        unless its query fails. */
    method Load(teamReply: Reply<Team>, rosterReply: Reply<seq<Joined<PlayerRecord>>>)
      modifies this`loading, this`error, this`team, this`players
      ensures !loading
      ensures !teamReply.Rows? ==> error == Some("Failed to load team") && team == old(team) && players == old(players)
      ensures teamReply.Rows? ==> error.None? && team == Some(teamReply.data)
      ensures teamReply.Rows? && !rosterReply.Failed? ==> players == RosterAsWritten(rosterReply.DataOr([]))
      ensures teamReply.Rows? && rosterReply.Failed? ==> players == old(players)
      ensures role == old(role) && available == old(available) && showAddPlayer == old(showAddPlayer)
    {
      loading := true;
      error := None;
      if !teamReply.Rows? {
        error := Some("Failed to load team");
        loading := false;
        return;
      }
      team := Some(teamReply.data);
      if !rosterReply.Failed? {
        players := RosterAsWritten(rosterReply.DataOr([]));
      }
      loading := false;
    }

    /** `loadAvailablePlayers`: the club's players outside the exclusion
        list, replaced unless the query fails. */
    method LoadAvailablePlayers(reply: Reply<seq<PlayerRecord>>)
      modifies this`loadingPlayers, this`available
      ensures team.None? ==> available == old(available) && loadingPlayers == old(loadingPlayers)
      ensures team.Some? ==> !loadingPlayers && available == (if reply.Failed? then old(available) else reply.DataOr([]))
      ensures team == old(team) && players == old(players) && showAddPlayer == old(showAddPlayer) && role == old(role)
    {
      if team.None? {
        return;
      }
      loadingPlayers := true;
      if !reply.Failed? {
        available := reply.DataOr([]);
      }
      loadingPlayers := false;
    }

    /** The "Add player" button: it flips the panel and, when it opens,
        loads the available players. */
    method ToggleAddPlayer(reply: Reply<seq<PlayerRecord>>)
      modifies this`showAddPlayer, this`loadingPlayers, this`available
      ensures showAddPlayer == !old(showAddPlayer)
      ensures !old(showAddPlayer) && team.Some? ==>
                available == (if reply.Failed? then old(available) else reply.DataOr([])) && !loadingPlayers
      ensures old(showAddPlayer) || team.None? ==> available == old(available) && loadingPlayers == old(loadingPlayers)
      ensures team == old(team) && players == old(players) && role == old(role)
    {
      var next := !showAddPlayer;
      showAddPlayer := next;
      if next {
        LoadAvailablePlayers(reply);
      }
    }

    /** `assignPlayerToTeam`: on success the roster is reloaded and the
        player leaves the available list. */
    method AssignPlayer(playerId: string, ack: Ack, rosterReply: Reply<seq<Joined<PlayerRecord>>>)
      modifies this`players, this`available
      ensures team.None? || ack.Rejected? ==> players == old(players) && available == old(available)
      ensures team.Some? && ack.Done? ==> available == WithoutPlayer(old(available), playerId)
      ensures team.Some? && ack.Done? ==>
                players == (if rosterReply.Failed? then old(players) else RosterAsWritten(rosterReply.DataOr([])))
      ensures team == old(team) && role == old(role) && showAddPlayer == old(showAddPlayer)
    {
      if team.None? || ack.Rejected? {
        return;
      }
      ReloadRoster(rosterReply);
      available := WithoutPlayer(available, playerId);
    }

    /** `removePlayerFromTeam`: on success the roster is reloaded. */
    method RemovePlayer(ack: Ack, rosterReply: Reply<seq<Joined<PlayerRecord>>>)
      modifies this`players
      ensures team.None? || ack.Rejected? ==> players == old(players)
      ensures team.Some? && ack.Done? ==>
                players == (if rosterReply.Failed? then old(players) else RosterAsWritten(rosterReply.DataOr([])))
      ensures team == old(team) && available == old(available) && role == old(role)
    {
      if team.None? || ack.Rejected? {
        return;
      }
      ReloadRoster(rosterReply);
    }

    /** `loadTeamPlayers`. */
    method ReloadRoster(rosterReply: Reply<seq<Joined<PlayerRecord>>>)
      modifies this`players
      ensures players == (if rosterReply.Failed? then old(players) else RosterAsWritten(rosterReply.DataOr([])))
    {
      if !rosterReply.Failed? {
        players := RosterAsWritten(rosterReply.DataOr([]));
      }
    }

    /** `createPlayer`: nothing without a club or a name. The insert
        carries the name, the birth date or null, and the club; on success
        the new player is added to the team, the form is cleared and closed,
        and the roster reloaded. `inserted` is the row sent and `addedId`
        the id then added to the team. */
    method CreatePlayer(insert: Reply<PlayerRecord>, rosterReply: Reply<seq<Joined<PlayerRecord>>>)
      returns (inserted: Option<NewPlayer>, addedId: Option<string>)
      modifies this`creatingPlayer, this`newPlayerName, this`newBirthDate, this`showAddPlayer, this`players
      ensures var go := old(team).Some? && old(team).value.clubId != "" && old(newPlayerName) != "";
              inserted == (if go then Some(NewPlayer(old(newPlayerName), OrNull(old(newBirthDate)), old(team).value.clubId)) else None)
      ensures addedId.Some? <==> inserted.Some? && insert.Rows?
      ensures addedId.Some? ==> addedId.value == insert.data.id
      ensures addedId.Some? ==> newPlayerName == "" && newBirthDate == "" && !showAddPlayer
      ensures addedId.Some? ==>
                players == (if rosterReply.Failed? then old(players) else RosterAsWritten(rosterReply.DataOr([])))
      ensures addedId.None? ==>
                players == old(players) && newPlayerName == old(newPlayerName) &&
                newBirthDate == old(newBirthDate) && showAddPlayer == old(showAddPlayer)
      ensures inserted.Some? ==> !creatingPlayer
      ensures inserted.None? ==> creatingPlayer == old(creatingPlayer)
      ensures team == old(team) && role == old(role)
    {
      inserted := None;
      addedId := None;
      if team.None? || team.value.clubId == "" || newPlayerName == "" {
        return;
      }
      inserted := Some(NewPlayer(newPlayerName, OrNull(newBirthDate), team.value.clubId));
      creatingPlayer := true;
      if !insert.Rows? {
        creatingPlayer := false;
        return;
      }
      addedId := Some(insert.data.id);
      newPlayerName := "";
      newBirthDate := "";
      showAddPlayer := false;
      creatingPlayer := false;
      ReloadRoster(rosterReply);
    }

    /** `activatePlayerAccess`: returns the error shown, if any; on success
        the modal closes, its fields are cleared and the roster reloaded. */
    method ActivatePlayerAccess(reply: ActivationReply, rosterReply: Reply<seq<Joined<PlayerRecord>>>)
      returns (shown: Option<string>)
      modifies this`activating, this`showActivateModal, this`activateEmail, this`activatePassword, this`players
      ensures shown == ActivationError(reply)
      ensures !activating
      ensures shown.Some? ==>
                showActivateModal == old(showActivateModal) && activateEmail == old(activateEmail) &&
                activatePassword == old(activatePassword) && players == old(players)
      ensures shown.None? ==> !showActivateModal && activateEmail == "" && activatePassword == ""
      ensures shown.None? ==>
                players == (if rosterReply.Failed? then old(players) else RosterAsWritten(rosterReply.DataOr([])))
      ensures team == old(team) && role == old(role)
    {
      activating := true;
      shown := ActivationError(reply);
      if shown.Some? {
        activating := false;
        return;
      }
      showActivateModal := false;
      activateEmail := "";
      activatePassword := "";
      activating := false;
      ReloadRoster(rosterReply);
    }
  }
}
