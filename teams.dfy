/** The teams screen of coaches and parents: a coach sees the teams the coach
    is assigned to, a parent sees the teams of the parent's children grouped
    team by team with the children listed under each, and every other role
    sees nothing. The grouping is shared with the shared teams screen. */
module TeamsPage {
  import opened Common

  /** A `teams` row as selected. */
  datatype TeamRow = TeamRow(id: string, name: string, season: Option<string>)

  /** A `players` row as selected. */
  datatype PlayerRow = PlayerRow(id: string, fullName: string, birthDate: Option<string>, userId: Option<string>, parentUserId: string)

  /** A `team_players` row with its team and its player joined. */
  datatype Membership = Membership(team: Joined<TeamRow>, player: Joined<PlayerRow>)

  /** A membership whose team and player are both present. */
  datatype Pair = Pair(team: TeamRow, player: PlayerRow)

  /** A team with the players listed under it. */
  datatype TeamWithPlayers = TeamWithPlayers(id: string, name: string, season: Option<string>, players: seq<PlayerRow>)

  // ---------------------------------------------------------------------
  // Grouping memberships by team
  // ---------------------------------------------------------------------

  /** The pair a row contributes, if any. A row is skipped when its team or
      its player is missing; with `strict` (the shared teams screen) also
      when the team's id or name is empty. */
  function KeepRow(r: Membership, strict: bool): (k: Option<Pair>)
    ensures k.Some? <==> FirstOf(r.team).Some? && FirstOf(r.player).Some? &&
                         (strict ==> FirstOf(r.team).value.id != "" && FirstOf(r.team).value.name != "")
    ensures k.Some? ==> k.value == Pair(FirstOf(r.team).value, FirstOf(r.player).value)
  {
    var t := FirstOf(r.team);
    var p := FirstOf(r.player);
    if t.None? || p.None? then None
    else if strict && (t.value.id == "" || t.value.name == "") then None
    else Some(Pair(t.value, p.value))
  }

  /** The pairs of the rows that are not skipped, in row order. */
  function Kept(rows: seq<Membership>, strict: bool): seq<Pair>
    decreases |rows|
  {
    if |rows| == 0 then []
    else
      var k := KeepRow(rows[|rows| - 1], strict);
      Kept(rows[..|rows| - 1], strict) + (if k.Some? then [k.value] else [])
  }

  /** Every kept pair comes from a row, and every row that is not skipped
      yields a kept pair. */
  lemma {:induction false} KeptMembers(rows: seq<Membership>, strict: bool, x: Pair)
    ensures x in Kept(rows, strict) <==> exists i :: 0 <= i < |rows| && KeepRow(rows[i], strict) == Some(x)
    decreases |rows|
  {
    if |rows| > 0 {
      var init := rows[..|rows| - 1];
      KeptMembers(init, strict, x);
      assert forall i :: 0 <= i < |init| ==> rows[i] == init[i];
      if x in Kept(rows, strict) && KeepRow(rows[|rows| - 1], strict) != Some(x) {
        assert x in Kept(init, strict);
      }
    }
  }

  function PairTeamId(p: Pair): string { p.team.id }

  /** The players of the pairs whose team has id `k`, in order. */
  function PlayersOf(pairs: seq<Pair>, k: string): seq<PlayerRow>
    decreases |pairs|
  {
    if |pairs| == 0 then []
    else
      var last := pairs[|pairs| - 1];
      PlayersOf(pairs[..|pairs| - 1], k) + (if last.team.id == k then [last.player] else [])
  }

  /** A player is listed under a team exactly when some pair joins them. */
  lemma {:induction false} PlayersOfMembers(pairs: seq<Pair>, k: string, x: PlayerRow)
    ensures x in PlayersOf(pairs, k) <==> exists i :: 0 <= i < |pairs| && pairs[i].team.id == k && pairs[i].player == x
    decreases |pairs|
  {
    if |pairs| > 0 {
      var init := pairs[..|pairs| - 1];
      PlayersOfMembers(init, k, x);
      assert forall i :: 0 <= i < |init| ==> pairs[i] == init[i];
      var last := pairs[|pairs| - 1];
      if x in PlayersOf(pairs, k) && !(last.team.id == k && last.player == x) {
        assert x in PlayersOf(init, k);
      }
    }
  }

  lemma {:induction false} PlayersOfAbsent(pairs: seq<Pair>, k: string)
    requires k !in KeysOf(pairs, PairTeamId)
    ensures PlayersOf(pairs, k) == []
    decreases |pairs|
  {
    if |pairs| > 0 {
      var init := pairs[..|pairs| - 1];
      KeysOfSnoc(init, pairs[|pairs| - 1], PairTeamId);
      assert pairs == init + [pairs[|pairs| - 1]];
      PlayersOfAbsent(init, k);
    }
  }

  /** The group of the team of `first`, over all pairs. */
  function GroupOf(first: Pair, pairs: seq<Pair>): TeamWithPlayers {
    TeamWithPlayers(first.team.id, first.team.name, first.team.season, PlayersOf(pairs, first.team.id))
  }

  /** The reference grouping: one group per team id, in the order the ids
      first appear, carrying the team fields of its first pair and the
      players of all its pairs. */
  function Grouped(pairs: seq<Pair>): (g: seq<TeamWithPlayers>)
    ensures |g| == |DedupBy(pairs, PairTeamId)|
  {
    var d := DedupBy(pairs, PairTeamId);
    seq(|d|, j requires 0 <= j < |d| => GroupOf(d[j], pairs))
  }

  /** The groups have distinct ids, one for every team id among the pairs,
      and each lists exactly the players joined to its team. */
  lemma GroupedProps(pairs: seq<Pair>)
    ensures forall i, j :: 0 <= i < j < |Grouped(pairs)| ==> Grouped(pairs)[i].id != Grouped(pairs)[j].id
    ensures forall k :: (exists j :: 0 <= j < |Grouped(pairs)| && Grouped(pairs)[j].id == k) <==> k in KeysOf(pairs, PairTeamId)
    ensures forall j :: 0 <= j < |Grouped(pairs)| ==> Grouped(pairs)[j].players == PlayersOf(pairs, Grouped(pairs)[j].id)
  {
    var d := DedupBy(pairs, PairTeamId);
    var g := Grouped(pairs);
    DedupByKeys(pairs, PairTeamId);
    assert forall j :: 0 <= j < |g| ==> g[j].id == KeysOf(d, PairTeamId)[j];
    forall k | k in KeysOf(pairs, PairTeamId) ensures exists j :: 0 <= j < |g| && g[j].id == k {
      assert k in KeysOf(d, PairTeamId);
      var j :| 0 <= j < |d| && KeysOf(d, PairTeamId)[j] == k;
      assert g[j].id == k;
    }
  }

  /** The state of the grouping loop after a prefix of the pairs: the ids
      in first-appearance order and, for each, its group so far. */
  ghost predicate GroupingState(pairs: seq<Pair>, order: seq<string>, groups: map<string, TeamWithPlayers>) {
    var d := DedupBy(pairs, PairTeamId);
    order == KeysOf(d, PairTeamId) &&
    (forall k :: k in groups <==> k in order) &&
    (forall j :: 0 <= j < |d| ==> groups[order[j]] == GroupOf(d[j], pairs))
  }

  lemma GroupingStep(pairs: seq<Pair>, pair: Pair, order: seq<string>, groups: map<string, TeamWithPlayers>,
                     order2: seq<string>, groups2: map<string, TeamWithPlayers>)
    requires GroupingState(pairs, order, groups)
    requires var id := pair.team.id;
             var g1 := if id in groups then groups else groups[id := TeamWithPlayers(id, pair.team.name, pair.team.season, [])];
             order2 == (if id in groups then order else order + [id]) &&
             groups2 == g1[id := g1[id].(players := g1[id].players + [pair.player])]
    ensures GroupingState(pairs + [pair], order2, groups2)
  {
    if pair.team.id in groups {
      GroupingStepKnown(pairs, pair, order, groups, groups2);
    } else {
      var empty := TeamWithPlayers(pair.team.id, pair.team.name, pair.team.season, []);
      assert empty.(players := empty.players + [pair.player]) == TeamWithPlayers(pair.team.id, pair.team.name, pair.team.season, [pair.player]);
      assert groups2 == groups[pair.team.id := empty][pair.team.id := empty.(players := empty.players + [pair.player])];
      GroupingStepNew(pairs, pair, order, groups, groups2);
    }
  }

  /** Appending a pair adds its player to its own team's list only. */
  lemma PlayersOfSnoc(pairs: seq<Pair>, pair: Pair)
    ensures forall k :: PlayersOf(pairs + [pair], k) == PlayersOf(pairs, k) + (if pair.team.id == k then [pair.player] else [])
  {
    var all := pairs + [pair];
    assert all[..|all| - 1] == pairs;
    assert all[|all| - 1] == pair;
  }

  /** A pair of a team already seen extends that team's group. */
  lemma GroupingStepKnown(pairs: seq<Pair>, pair: Pair, order: seq<string>, groups: map<string, TeamWithPlayers>,
                          groups2: map<string, TeamWithPlayers>)
    requires GroupingState(pairs, order, groups)
    requires pair.team.id in groups
    requires groups2 == groups[pair.team.id := groups[pair.team.id].(players := groups[pair.team.id].players + [pair.player])]
    ensures GroupingState(pairs + [pair], order, groups2)
  {
    var id := pair.team.id;
    var all := pairs + [pair];
    var d := DedupBy(pairs, PairTeamId);
    assert all[..|all| - 1] == pairs;
    DedupByKeys(pairs, PairTeamId);
    assert id in KeysOf(pairs, PairTeamId);
    PlayersOfSnoc(pairs, pair);
    assert DedupBy(all, PairTeamId) == d;
    forall j | 0 <= j < |d| ensures groups2[order[j]] == GroupOf(d[j], all) {
      assert order[j] == d[j].team.id;
    }
  }

  /** A pair of a new team opens a group at the end of the order. */
  lemma GroupingStepNew(pairs: seq<Pair>, pair: Pair, order: seq<string>, groups: map<string, TeamWithPlayers>,
                        groups2: map<string, TeamWithPlayers>)
    requires GroupingState(pairs, order, groups)
    requires pair.team.id !in groups
    requires groups2 == groups[pair.team.id := TeamWithPlayers(pair.team.id, pair.team.name, pair.team.season, [pair.player])]
    ensures GroupingState(pairs + [pair], order + [pair.team.id], groups2)
  {
    var id := pair.team.id;
    var all := pairs + [pair];
    var d := DedupBy(pairs, PairTeamId);
    var d2 := DedupBy(all, PairTeamId);
    assert all[..|all| - 1] == pairs;
    DedupByKeys(pairs, PairTeamId);
    assert id !in KeysOf(pairs, PairTeamId);
    PlayersOfSnoc(pairs, pair);
    assert d2 == d + [pair];
    KeysOfSnoc(d, pair, PairTeamId);
    PlayersOfAbsent(pairs, id);
    var order2 := order + [id];
    forall j | 0 <= j < |d2| ensures groups2[order2[j]] == GroupOf(d2[j], all) {
      if j < |d| {
        assert order2[j] == order[j] == d[j].team.id;
        assert order[j] != id;
      }
    }
  }

  lemma KeptStep(rows: seq<Membership>, i: nat, strict: bool)
    requires i < |rows|
    ensures Kept(rows[..i + 1], strict) ==
            Kept(rows[..i], strict) + (if KeepRow(rows[i], strict).Some? then [KeepRow(rows[i], strict).value] else [])
  {
    assert rows[..i + 1][..i] == rows[..i];
  }

  /** The grouping loop: a `Map` keyed by team id, filled row by row, whose
      values are listed in insertion order. */
  method GroupByTeam(rows: seq<Membership>, strict: bool) returns (teams: seq<TeamWithPlayers>)
    ensures teams == Grouped(Kept(rows, strict))
  {
    var order: seq<string> := [];
    var groups: map<string, TeamWithPlayers> := map[];
    var i := 0;
    while i < |rows|
      invariant 0 <= i <= |rows|
      invariant GroupingState(Kept(rows[..i], strict), order, groups)
    {
      var kept := KeepRow(rows[i], strict);
      KeptStep(rows, i, strict);
      if kept.Some? {
        var pair := kept.value;
        var id := pair.team.id;
        ghost var order0, groups0 := order, groups;
        if id !in groups {
          groups := groups[id := TeamWithPlayers(id, pair.team.name, pair.team.season, [])];
          order := order + [id];
        }
        groups := groups[id := groups[id].(players := groups[id].players + [pair.player])];
        GroupingStep(Kept(rows[..i], strict), pair, order0, groups0, order, groups);
      } else {
        assert Kept(rows[..i + 1], strict) == Kept(rows[..i], strict);
      }
      i := i + 1;
    }
    assert rows[..i] == rows;
    teams := seq(|order|, j requires 0 <= j < |order| && order[j] in groups => groups[order[j]]);
  }

  // ---------------------------------------------------------------------
  // Coach teams
  // ---------------------------------------------------------------------

  /** A team listed without players. */
  function Bare(t: TeamRow): TeamWithPlayers {
    TeamWithPlayers(t.id, t.name, t.season, [])
  }

  /** The coach's teams: `map(r => r.teams).flat().filter(Boolean)`, each
      team listed without players. */
  function CoachTeams(joined: seq<Joined<TeamRow>>): (r: seq<TeamWithPlayers>)
    ensures |r| == |Flatten(joined)|
    ensures forall i :: 0 <= i < |r| ==> r[i] == Bare(Flatten(joined)[i])
  {
    var flat := Flatten(joined);
    seq(|flat|, i requires 0 <= i < |flat| => Bare(flat[i]))
  }

  /** A team is listed for the coach exactly when one of the coach's rows
      joins it, and listed with no players. */
  lemma CoachTeamsMembers(joined: seq<Joined<TeamRow>>, t: TeamRow)
    ensures Bare(t) in CoachTeams(joined) <==> exists k :: 0 <= k < |joined| && t in AsList(joined[k])
  {
    FlattenMembers(joined, t);
    var r := CoachTeams(joined);
    if Bare(t) in r {
      var i :| 0 <= i < |r| && r[i] == Bare(t);
      assert Flatten(joined)[i] == t;
    }
    if t in Flatten(joined) {
      var i :| 0 <= i < |Flatten(joined)| && Flatten(joined)[i] == t;
      assert r[i] == Bare(t);
    }
  }

  // ---------------------------------------------------------------------
  // Access activation
  // ---------------------------------------------------------------------

  /** The player after its access was activated. */
  function Activated(p: PlayerRow): PlayerRow {
    p.(userId := Some("activated"))
  }

  /** The update after an activation succeeds: in the team with the given
      id, the player with the given id is marked as activated. */
  function ActivatePlayer(teams: seq<TeamWithPlayers>, teamId: string, playerId: string): (r: seq<TeamWithPlayers>)
    ensures |r| == |teams|
    ensures forall i :: 0 <= i < |r| ==>
              r[i].id == teams[i].id && r[i].name == teams[i].name && r[i].season == teams[i].season &&
              |r[i].players| == |teams[i].players|
    ensures forall i, j :: 0 <= i < |r| && 0 <= j < |r[i].players| ==>
              r[i].players[j] == (if teams[i].id == teamId && teams[i].players[j].id == playerId
                                  then Activated(teams[i].players[j]) else teams[i].players[j])
  {
    seq(|teams|, i requires 0 <= i < |teams| =>
      if teams[i].id == teamId then
        teams[i].(players := seq(|teams[i].players|, j requires 0 <= j < |teams[i].players| =>
          if teams[i].players[j].id == playerId then Activated(teams[i].players[j]) else teams[i].players[j]))
      else teams[i])
  }

  /** After the update the player shows as having access, and activating
      again changes nothing. */
  lemma ActivatePlayerEffect(teams: seq<TeamWithPlayers>, teamId: string, playerId: string)
    ensures var r := ActivatePlayer(teams, teamId, playerId);
            forall i, j :: 0 <= i < |r| && 0 <= j < |r[i].players| && r[i].id == teamId && r[i].players[j].id == playerId ==>
              Present(r[i].players[j].userId)
    ensures ActivatePlayer(ActivatePlayer(teams, teamId, playerId), teamId, playerId) == ActivatePlayer(teams, teamId, playerId)
  {
    var r := ActivatePlayer(teams, teamId, playerId);
    var r2 := ActivatePlayer(r, teamId, playerId);
    assert forall i :: 0 <= i < |r| ==> r2[i].players == r[i].players;
    assert forall i :: 0 <= i < |r| ==> r2[i] == r[i];
  }

  // ---------------------------------------------------------------------
  // The screen
  // ---------------------------------------------------------------------

  /** Loading first, then the error, then the empty state. */
  function TeamsView(loading: bool, error: Option<string>, teams: seq<TeamWithPlayers>): (v: View)
    ensures v == Spinner <==> loading
    ensures v.ErrorView? <==> !loading && error.Some? && error.value != ""
    ensures v == EmptyView <==> !loading && !Present(error) && |teams| == 0
    ensures v == Content ==> |teams| > 0
  {
    if loading then Spinner
    else if Present(error) then ErrorView(error.value)
    else if |teams| == 0 then EmptyView
    else Content
  }

  class TeamsScreen {
    var teams: seq<TeamWithPlayers>
    var loading: bool
    var error: Option<string>

    constructor ()
      ensures teams == [] && loading && error.None?
    {
      teams := [];
      loading := true;
      error := None;
    }

    /** The loading effect, run only when the user has an id. Only the reply
        of the role's own query is read. */
    method LoadTeams(role: Option<Role>, userId: Option<string>,
                     coachReply: Reply<seq<Joined<TeamRow>>>, parentReply: Reply<seq<Membership>>)
      modifies this
      ensures !Present(userId) ==> teams == old(teams) && loading == old(loading) && error == old(error)
      ensures Present(userId) ==> !loading
      ensures Present(userId) && role == Some(Coach) && coachReply.Failed? ==>
                error == Some("Error loading teams") && teams == old(teams)
      ensures Present(userId) && role == Some(Coach) && !coachReply.Failed? ==>
                error.None? && teams == CoachTeams(coachReply.DataOr([]))
      ensures Present(userId) && role == Some(Parent) ==>
                error.None? && teams == (if parentReply.Rows? then Grouped(Kept(parentReply.data, false)) else [])
      ensures Present(userId) && role != Some(Coach) && role != Some(Parent) ==> error.None? && teams == []
    {
      if !Present(userId) {
        return;
      }
      loading := true;
      error := None;
      if role == Some(Coach) {
        if coachReply.Failed? {
          error := Some("Error loading teams");
          loading := false;
          return;
        }
        teams := CoachTeams(coachReply.DataOr([]));
        loading := false;
        return;
      }
      if role == Some(Parent) {
        if !parentReply.Rows? {
          teams := [];
          loading := false;
          return;
        }
        teams := GroupByTeam(parentReply.data, false);
        loading := false;
        return;
      }
      teams := [];
      loading := false;
    }

    /** The success callback of the activation dialog. */
    method ActivationSucceeded(teamId: string, playerId: string)
      modifies this
      ensures teams == ActivatePlayer(old(teams), teamId, playerId)
      ensures loading == old(loading) && error == old(error)
    {
      teams := ActivatePlayer(teams, teamId, playerId);
    }

    function View(): View
      reads this
    {
      TeamsView(loading, error, teams)
    }
  }
}
