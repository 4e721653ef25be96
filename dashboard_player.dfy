/** The second player dashboard: the player's profile and the teams of the
    player's memberships, with an interface state derived from the loading
    flag and the player. */
module DashboardPlayer {
  import opened Common

  datatype PlayerProfile = PlayerProfile(id: string, fullName: string, birthDate: Option<string>)

  datatype TeamRef = TeamRef(id: string, name: string)

  /** The interface state: loading, blocked (no player) or active. */
  datatype UiState = UiLoading | UiBlocked | UiActive

  function UiStateOf(loading: bool, player: Option<PlayerProfile>): (u: UiState)
    ensures u == UiLoading <==> loading
    ensures u == UiBlocked <==> !loading && player.None?
    ensures u == UiActive <==> !loading && player.Some?
  {
    if loading then UiLoading else if player.None? then UiBlocked else UiActive
  }

  /** The interface state is checked before the error, so an error is shown
      only once loading has finished, and a blocked player with an error
      sees the error. */
  function DashboardView(loading: bool, error: Option<string>, player: Option<PlayerProfile>): (v: View)
    ensures v == Spinner <==> loading
    ensures v.ErrorView? <==> !loading && Present(error)
    ensures v == EmptyView <==> !loading && !Present(error) && player.None?
    ensures v == Content <==> UiStateOf(loading, player) == UiActive && !Present(error)
  {
    if UiStateOf(loading, player) == UiLoading then Spinner
    else if Present(error) then ErrorView(error.value)
    else if UiStateOf(loading, player) == UiBlocked then EmptyView
    else Content
  }

  class DashboardScreen {
    /** The teams of the memberships, `map(t => t.team)`: a membership
        whose team is null contributes a null entry. */
    var player: Option<PlayerProfile>
    var teams: seq<Option<TeamRef>>
    var loading: bool
    var error: Option<string>

    constructor ()
      ensures player.None? && teams == [] && loading && error.None?
    {
      player := None;
      teams := [];
      loading := true;
      error := None;
    }

    /** The loading effect, run only for a user with an id. The player query
        expects exactly one row, so a missing row is an error. */
    method Load(userId: Option<string>, playerReply: Reply<PlayerProfile>, teamsReply: Reply<seq<Option<TeamRef>>>)
      modifies this
      ensures !Present(userId) ==> player == old(player) && teams == old(teams) && loading == old(loading) && error == old(error)
      ensures Present(userId) ==> !loading
      ensures Present(userId) && !playerReply.Rows? ==>
                error == Some("No se pudo cargar el perfil") && player == old(player) && teams == old(teams)
      ensures Present(userId) && playerReply.Rows? ==> player == Some(playerReply.data)
      ensures Present(userId) && playerReply.Rows? && teamsReply.Failed? ==>
                error == Some("No se pudieron cargar los equipos") && teams == old(teams)
      ensures Present(userId) && playerReply.Rows? && !teamsReply.Failed? ==>
                error.None? && teams == teamsReply.DataOr([])
    {
      if !Present(userId) {
        return;
      }
      loading := true;
      error := None;
      if !playerReply.Rows? {
        error := Some("No se pudo cargar el perfil");
        loading := false;
        return;
      }
      player := Some(playerReply.data);
      if teamsReply.Failed? {
        error := Some("No se pudieron cargar los equipos");
        loading := false;
        return;
      }
      teams := teamsReply.DataOr([]);
      loading := false;
    }
  }
}
