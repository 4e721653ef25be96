/** The application's routes: the reset guard placed before the route table,
    the protected-route wrapper, the route table itself, the lookup of the
    player row for a signed-in player, and the redirect that follows a login
    on the root path. */
module AppRoutes {
  import opened Common
  import opened AuthContext
  import AppLayout
  import RoleRedirect

  /** The screens mounted under the protected layout. */
  datatype Page =
    | HomePage | CalendarPage | MessagesPage | TeamsPage | CentersPage | ProfilePage
    | PlayerDashboardPage | ParentDashboardPage | PlayersPage | EventDetailPage(eventId: string)
    | AdminEventsPage | AdminTeamsPage | TeamDetailPage(teamId: string) | AdminPlayersPage

  /** What a path renders to: a redirect, the login screen, the reset
      screen, a page inside the layout, or the not-found screen; or, when a
      render calls fewer or more hooks than the first one did, the error
      React throws, which with no error boundary above unmounts the whole
      application. */
  datatype Screen =
    | Go(redirect: Redirect) | AuthScreen | ResetScreen | Layout(page: Page) | NotFoundScreen
    | HookOrderError

  /** The parameter of a one-segment parameterised path such as
      `/events/:eventId`: a non-empty segment without a slash. */
  function ParamAfter(prefix: string, path: string): (r: Option<string>)
    ensures r.Some? <==> |path| > |prefix| && path[..|prefix|] == prefix && '/' !in path[|prefix|..]
    ensures r.Some? ==> path == prefix + r.value && r.value != ""
  {
    if |path| > |prefix| && path[..|prefix|] == prefix && '/' !in path[|prefix|..] then Some(path[|prefix|..])
    else None
  }

  /** The child routes of the protected layout. */
  function LayoutPage(path: string): Option<Page> {
    if path == "/home" then Some(HomePage)
    else if path == "/calendar" then Some(CalendarPage)
    else if path == "/messages" then Some(MessagesPage)
    else if path == "/teams" then Some(TeamsPage)
    else if path == "/centers" then Some(CentersPage)
    else if path == "/profile" then Some(ProfilePage)
    else if path == "/dashboard/player" then Some(PlayerDashboardPage)
    else if path == "/dashboard/parent" then Some(ParentDashboardPage)
    else if path == "/players" then Some(PlayersPage)
    else if ParamAfter("/events/", path).Some? then Some(EventDetailPage(ParamAfter("/events/", path).value))
    else if path == "/admin/events" then Some(AdminEventsPage)
    else if path == "/admin/teams" then Some(AdminTeamsPage)
    else if ParamAfter("/admin/teams/", path).Some? then Some(TeamDetailPage(ParamAfter("/admin/teams/", path).value))
    else if path == "/admin/players" then Some(AdminPlayersPage)
    else None
  }

  /** `ProtectedRoute`: a signed-out user is sent to the root path. */
  function Protected(isAuthenticated: bool, inner: Screen): (r: Screen)
    ensures !isAuthenticated ==> r == Go(Redirect("/", true))
    ensures isAuthenticated ==> r == inner
  {
    if !isAuthenticated then Go(Redirect("/", true)) else inner
  }

  /** The route table below the guard. */
  function RouteTable(s: AuthState, path: string): Screen {
    if path == "/" then AuthScreen
    else if path == "/reset-password" then Protected(s.isAuthenticated, ResetScreen)
    else match LayoutPage(path)
      case Some(p) =>
        Protected(s.isAuthenticated,
          match AppLayout.LayoutGuard(s.role, ForceReset(s), path)
          case Some(r) => Go(r)
          case None => Layout(p))
      case None => NotFoundScreen
  }

  /** The element the body of `AppRoutes` returns as written: the reset
      guard applies to every state whose flag is set, signed in or not.
      Whether React accepts that render is `Shown`'s concern. */
  function Render(s: AuthState, path: string): (r: Screen)
    ensures ForceReset(s) && path != "/reset-password" ==> r == Go(Redirect("/reset-password", true))
    ensures r.Layout? || r == ResetScreen ==> s.isAuthenticated
    ensures r != HookOrderError
  {
    if ForceReset(s) && path != "/reset-password" then Go(Redirect("/reset-password", true))
    else RouteTable(s, path)
  }

  /** Whether a render of `AppRoutes` reaches its two effects: the reset
      guard returns before them, after the context, location, navigation
      and state hooks. */
  predicate CallsEffects(s: AuthState, path: string) {
    !(ForceReset(s) && path != "/reset-password")
  }

  /** What a render after the first one shows, given whether the first one
      called the effects: a render that calls a different number of hooks
      throws. */
  function Shown(effectsAtMount: bool, s: AuthState, path: string): (r: Screen)
    ensures r == HookOrderError <==> CallsEffects(s, path) != effectsAtMount
  {
    if CallsEffects(s, path) != effectsAtMount then HookOrderError else Render(s, path)
  }

  /** The provider renders its children from the start, so `AppRoutes` is
      first rendered on the provider's initial state, whose flag is unset:
      that render calls the effects. From then on a render the guard takes
      throws, and every other render shows the route table. */
  lemma RenderAfterMount(mountPath: string, s: AuthState, path: string)
    ensures CallsEffects(Initial(), mountPath)
    ensures ForceReset(s) && path != "/reset-password" ==>
              Shown(CallsEffects(Initial(), mountPath), s, path) == HookOrderError
    ensures !(ForceReset(s) && path != "/reset-password") ==>
              Shown(CallsEffects(Initial(), mountPath), s, path) == RouteTable(s, path)
  {
  }

  /** Once the guard of `AppRoutes` has let a path through, the guard of the
      layout never fires: a flagged state never reaches a layout page. */
  lemma LayoutGuardRedundant(s: AuthState, path: string)
    ensures ForceReset(s) ==> !Render(s, path).Layout?
    ensures LayoutPage(path).Some? && !ForceReset(s) ==> AppLayout.LayoutGuard(s.role, ForceReset(s), path).None?
  {
  }

  /** A signed-out state that forces a reset: the guard would send the root
      path to the reset screen and the reset screen's protection would send
      it back, but after the mount the guard's render throws, so the reset
      path leads to the root path and the application fails there. */
  lemma SignedOutResetFails(s: AuthState)
    requires ForceReset(s) && !s.isAuthenticated
    ensures Render(s, "/") == Go(Redirect("/reset-password", true))
    ensures Render(s, "/reset-password") == Go(Redirect("/", true))
    ensures Shown(true, s, "/reset-password") == Go(Redirect("/", true))
    ensures Shown(true, s, "/") == HookOrderError
  {
  }

  /** Such a state is reachable: a session whose user carries the marker
      but whose profile row is missing restores to it, and then every path
      fails, at once or after one redirect. */
  lemma RestoreLeadsToFailure(u: AuthUser, roleReply: Reply<RoleRow>, mountPath: string, path: string)
    requires IsTempPassword(u)
    ensures var s := RestoreResult(Session(u), NoData, roleReply);
            (path != "/reset-password" ==> Shown(CallsEffects(Initial(), mountPath), s, path) == HookOrderError) &&
            Shown(CallsEffects(Initial(), mountPath), s, "/reset-password") == Go(Redirect("/", true))
  {
    var s := RestoreResult(Session(u), NoData, roleReply);
    RestoreSignedOutWithReset(u, roleReply);
    RenderAfterMount(mountPath, s, path);
    SignedOutResetFails(s);
  }

  /** The evidently intended rendering: the reset guard is placed after the
      hooks, so every render calls the same hooks and none throws, and it
      applies to signed-in users only, so a signed-out user reaches the
      login screen. */
  function RenderIntended(s: AuthState, path: string): (r: Screen)
    ensures s.isAuthenticated && ForceReset(s) && path != "/reset-password" ==> r == Go(Redirect("/reset-password", true))
    ensures r.Layout? ==> s.isAuthenticated && !ForceReset(s)
  {
    if s.isAuthenticated && ForceReset(s) && path != "/reset-password" then Go(Redirect("/reset-password", true))
    else RouteTable(s, path)
  }

  /** The fixed paths the guards redirect to are not layout pages. */
  lemma RedirectTargetsAreNotPages()
    ensures LayoutPage("/").None? && LayoutPage("/reset-password").None?
  {
    assert "/reset-password"[1] != "/events/"[1];
    assert "/reset-password"[1] != "/admin/teams/"[1];
    assert "/reset-password"[..8] != "/events/";
    assert "/reset-password"[..13] != "/admin/teams/";
  }

  /** With the intended guard every redirect lands on a screen that renders
      without redirecting again. */
  lemma IntendedRedirectsSettle(s: AuthState, path: string)
    ensures RenderIntended(s, path).Go? ==> !RenderIntended(s, RenderIntended(s, path).redirect.to).Go?
  {
    RedirectTargetsAreNotPages();
    var r := RenderIntended(s, path);
    if r.Go? {
      if s.isAuthenticated {
        assert r.redirect.to == "/reset-password";
      } else {
        assert r.redirect.to == "/";
      }
    }
  }

  /** A row of `players` as the lookup selects it. */
  datatype PlayerRow = PlayerRow(id: string, clubId: Option<string>)

  /** The player lookup runs only for a signed-in player with a user. */
  predicate PlayerLookupNeeded(s: AuthState) {
    s.isAuthenticated && s.role == Some(Player) && s.user.Some?
  }

  /** The redirect that follows a login: only on the root path, only for a
      signed-in user with a role, and for a player only once the player row
      is known. Roles without a case stay where they are. */
  function PostLoginTarget(isAuthenticated: bool, role: Option<Role>, loadingPlayer: bool,
                           playerProfile: Option<PlayerRow>, path: string): (r: Option<Redirect>)
    ensures r.Some? ==> isAuthenticated && path == "/" && r.value.replace
    ensures r.Some? <==> isAuthenticated && path == "/" &&
                          (role == Some(SuperAdmin) || role == Some(Parent) || (role == Some(Player) && !loadingPlayer))
    ensures r.Some? && role == Some(SuperAdmin) ==> r.value.to == "/home"
    ensures r.Some? && role == Some(Parent) ==> r.value.to == "/dashboard/parent"
    ensures r.Some? && role == Some(Player) ==>
              (r.value.to == "/dashboard/player" <==> playerProfile.Some? && Present(playerProfile.value.clubId))
    ensures r.Some? && role == Some(Player) && !(playerProfile.Some? && Present(playerProfile.value.clubId)) ==>
              r.value.to == "/player/onboarding"
  {
    if !isAuthenticated || role.None? then None
    else if role == Some(Player) && loadingPlayer then None
    else if path != "/" then None
    else match role.value
      case SuperAdmin => Some(Redirect("/home", true))
      case Parent => Some(Redirect("/dashboard/parent", true))
      case Player =>
        if playerProfile.None? || !Present(playerProfile.value.clubId) then Some(Redirect("/player/onboarding", true))
        else Some(Redirect("/dashboard/player", true))
      case _ => None
  }

  /** Following the redirect once is enough: at its target no further
      redirect is issued. */
  lemma PostLoginSettles(isAuthenticated: bool, role: Option<Role>, loadingPlayer: bool,
                         playerProfile: Option<PlayerRow>, path: string)
    ensures var r := PostLoginTarget(isAuthenticated, role, loadingPlayer, playerProfile, path);
            r.Some? ==> PostLoginTarget(isAuthenticated, role, loadingPlayer, playerProfile, r.value.to).None?
  {
  }

  /** The post-login table and the role landing component disagree: a coach
      is sent to the teams screen by one and left on the root path by the
      other, and a super admin is sent to `/home` by one and to the root
      path by the other. */
  lemma LandingTablesDiffer()
    ensures PostLoginTarget(true, Some(Coach), false, None, "/").None?
    ensures RoleRedirect.RoleLanding(Some(Coach)) == Some(Redirect("/teams", true))
    ensures PostLoginTarget(true, Some(SuperAdmin), false, None, "/") == Some(Redirect("/home", true))
    ensures RoleRedirect.RoleLanding(Some(SuperAdmin)) == Some(Redirect("/", true))
  {
  }

  /** The onboarding target of a player without a club is not a route: it
      renders the not-found screen. */
  lemma OnboardingNotRouted(s: AuthState)
    requires !ForceReset(s)
    ensures Render(s, "/player/onboarding") == NotFoundScreen
  {
    assert "/player/onboarding"[1] != "/events/"[1];
    assert "/player/onboarding"[1] != "/admin/teams/"[1];
    assert "/player/onboarding"[..8] != "/events/";
    assert "/player/onboarding"[..13] != "/admin/teams/";
  }

  /** The state `AppRoutes` keeps: the player row and its loading flag,
      and whether its first render called the effects (`None` before that
      render). */
  class RoutesState {
    var playerProfile: Option<PlayerRow>
    var loadingPlayer: bool
    var effectsAtMount: Option<bool>

    constructor ()
      ensures playerProfile.None? && loadingPlayer && effectsAtMount.None?
    {
      playerProfile := None;
      loadingPlayer := true;
      effectsAtMount := None;
    }

    /** One render: the first fixes the hooks every later one must call. */
    method RenderAt(s: AuthState, path: string) returns (screen: Screen)
      modifies this`effectsAtMount
      ensures old(effectsAtMount).None? ==> effectsAtMount == Some(CallsEffects(s, path)) && screen == Render(s, path)
      ensures old(effectsAtMount).Some? ==>
                effectsAtMount == old(effectsAtMount) && screen == Shown(old(effectsAtMount).value, s, path)
    {
      if effectsAtMount.None? {
        effectsAtMount := Some(CallsEffects(s, path));
        screen := Render(s, path);
      } else {
        screen := Shown(effectsAtMount.value, s, path);
      }
    }

    /** The player lookup effect when it runs: nothing to look up settles
        loading at once; otherwise the query is sent and, as written,
        nothing is marked as loading while it is under way. */
    method StartLookup(s: AuthState)
      modifies this`loadingPlayer
      ensures !PlayerLookupNeeded(s) ==> !loadingPlayer
      ensures PlayerLookupNeeded(s) ==> loadingPlayer == old(loadingPlayer)
    {
      if !PlayerLookupNeeded(s) {
        loadingPlayer := false;
      }
    }

    /** The evidently intended start of a lookup: the redirect waits while
        the query is under way. */
    method StartLookupIntended(s: AuthState)
      modifies this`loadingPlayer
      ensures loadingPlayer <==> PlayerLookupNeeded(s)
    {
      loadingPlayer := PlayerLookupNeeded(s);
    }

    /** The reply to the query: the row found (null on no row or an error)
        is kept and loading ends. */
    method FinishLookup(reply: Reply<PlayerRow>)
      modifies this`playerProfile, this`loadingPlayer
      ensures playerProfile == reply.Data() && !loadingPlayer
    {
      playerProfile := reply.Data();
      loadingPlayer := false;
    }

    /** The redirect the post-login effect issues in the current state. */
    method PostLoginRedirect(s: AuthState, path: string) returns (r: Option<Redirect>)
      ensures r == PostLoginTarget(s.isAuthenticated, s.role, loadingPlayer, playerProfile, path)
    {
      r := PostLoginTarget(s.isAuthenticated, s.role, loadingPlayer, playerProfile, path);
    }
  }

  /** A player whose account has a club opens the application at `/` with a
      stored session: the routes mount on the signed-out initial state, and
      the session restore then yields the signed-in state `s`. The mount's
      lookup settled loading, and the new lookup does not raise it again,
      so the redirect sends the player to onboarding before the row
      arrives; once there, the row changes nothing. */
  method PlayerRestoreAsWritten(s: AuthState, row: PlayerRow)
    returns (first: Option<Redirect>, afterRow: Option<Redirect>)
    requires PlayerLookupNeeded(s) && Present(row.clubId)
    ensures first == Some(Redirect("/player/onboarding", true))
    ensures afterRow.None?
  {
    var routes := new RoutesState();
    routes.StartLookup(Initial());
    routes.StartLookup(s);
    first := routes.PostLoginRedirect(s, "/");
    routes.FinishLookup(Rows(row));
    afterRow := routes.PostLoginRedirect(s, first.value.to);
  }

  /** The same session restore with the intended lookup: no redirect while
      the row is under way, then the player dashboard. */
  method PlayerRestoreIntended(s: AuthState, row: PlayerRow)
    returns (first: Option<Redirect>, afterRow: Option<Redirect>)
    requires PlayerLookupNeeded(s) && Present(row.clubId)
    ensures first.None?
    ensures afterRow == Some(Redirect("/dashboard/player", true))
  {
    var routes := new RoutesState();
    routes.StartLookupIntended(Initial());
    routes.StartLookupIntended(s);
    first := routes.PostLoginRedirect(s, "/");
    routes.FinishLookup(Rows(row));
    afterRow := routes.PostLoginRedirect(s, "/");
  }
}
