/** The forced password reset screen: the new password is checked, stored,
    the temporary-password marker cleared, and the user sent on. */
module ResetPassword {
  import opened Common
  import opened AuthContext
  import opened AppRoutes

  const TooShort: string := "La contraseña debe tener al menos 8 caracteres"
  const Mismatch: string := "Las contraseñas no coinciden"

  /** The checks made before anything is sent: the length first, then the
      confirmation. */
  function Validate(password: string, confirm: string): (m: Option<string>)
    ensures |password| < 8 ==> m == Some(TooShort)
    ensures |password| >= 8 && password != confirm ==> m == Some(Mismatch)
    ensures m.None? <==> |password| >= 8 && password == confirm
  {
    if |password| < 8 then Some(TooShort)
    else if password != confirm then Some(Mismatch)
    else None
  }

  /** Where the screen sends the user after the new password is stored, as
      written. */
  const TargetAsWritten: string := "/player/dashboard"

  /** As written, the context is not told about the new password: its flag
      is still set, so the guard returns before the route component's
      effects and the render at the target throws. Were the guard placed
      after the hooks, it would send the user straight back to the reset
      screen; and with the flag cleared the target is not a route. */
  lemma ResetNeverReachesTarget(s: AuthState)
    requires s.isAuthenticated && ForceReset(s)
    ensures Shown(true, s, TargetAsWritten) == HookOrderError
    ensures RenderIntended(s, TargetAsWritten) == Go(Redirect("/reset-password", true))
    ensures Shown(true, Cleared(s), TargetAsWritten) == NotFoundScreen
  {
    TargetNotRouted(Cleared(s));
  }

  /** The target as written is not a route. */
  lemma TargetNotRouted(s: AuthState)
    ensures RouteTable(s, TargetAsWritten) == NotFoundScreen
    ensures !ForceReset(s) ==> Shown(true, s, TargetAsWritten) == NotFoundScreen
  {
    assert TargetAsWritten[1] != "/events/"[1];
    assert TargetAsWritten[1] != "/admin/teams/"[1];
    assert TargetAsWritten[..8] != "/events/";
    assert TargetAsWritten[..13] != "/admin/teams/";
  }

  /** The evidently intended target: the player dashboard route. */
  const TargetIntended: string := "/dashboard/player"

  /** The evidently intended effect on the context: the flag is cleared. */
  function Cleared(s: AuthState): (r: AuthState)
    ensures !ForceReset(r) && r.forcePasswordReset == Some(false)
    ensures r.user == s.user && r.role == s.role && r.clubId == s.clubId
    ensures r.isAuthenticated == s.isAuthenticated && r.isLoading == s.isLoading
  {
    s.(forcePasswordReset := Some(false))
  }

  /** With both corrections a signed-in player lands on the player
      dashboard, and no guard redirects there. */
  lemma IntendedResetLands(s: AuthState)
    requires s.isAuthenticated && s.role == Some(Player)
    ensures RenderIntended(Cleared(s), TargetIntended) == Layout(PlayerDashboardPage)
    ensures Render(Cleared(s), TargetIntended) == Layout(PlayerDashboardPage)
    ensures Shown(true, Cleared(s), TargetIntended) == Layout(PlayerDashboardPage)
  {
  }

  /** The screen, as written. */
  class ResetPasswordScreen {
    var password: string
    var confirm: string
    var error: Option<string>
    var loading: bool

    constructor ()
      ensures password == "" && confirm == "" && error.None? && !loading
    {
      password := "";
      confirm := "";
      error := None;
      loading := false;
    }

    /** `handleSubmit`. `update` is the reply to the password update; the
        marker update and the session refresh that follow are not checked,
        and nothing tells the context about them, so its state is the one
        it had. On success the screen stays loading and sends the user to
        `TargetAsWritten`: with the flag still set the routes then throw,
        and without it the target renders the not-found screen. */
    method HandleSubmit(update: Ack, store: AuthStore) returns (sentPassword: bool, target: Option<Redirect>)
      modifies this`error, this`loading
      ensures sentPassword <==> Validate(old(password), old(confirm)).None?
      ensures !sentPassword ==> error == Validate(old(password), old(confirm)) && loading == old(loading)
      ensures sentPassword && update.Rejected? ==> error == Some(update.message) && !loading
      ensures target.Some? <==> sentPassword && update.Done?
      ensures target.Some? ==> target.value == Redirect(TargetAsWritten, true) && error.None? && loading
      ensures target.Some? && ForceReset(store.state) ==> Shown(true, store.state, target.value.to) == HookOrderError
      ensures target.Some? && !ForceReset(store.state) ==> Shown(true, store.state, target.value.to) == NotFoundScreen
      ensures store.state == old(store.state)
      ensures password == old(password) && confirm == old(confirm)
    {
      error := None;
      sentPassword := false;
      target := None;
      var invalid := Validate(password, confirm);
      if invalid.Some? {
        error := invalid;
        return;
      }
      sentPassword := true;
      loading := true;
      if update.Rejected? {
        error := Some(update.message);
        loading := false;
        return;
      }
      target := Some(Redirect(TargetAsWritten, true));
      TargetNotRouted(store.state);
    }
  }
}
