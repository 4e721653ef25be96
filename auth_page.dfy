/** The login screen: a form that checks its fields, calls the context's
    `login`, and on success goes to the home screen. The sign-up mode only
    asks for a name in addition; it also calls `login`. */
module AuthPage {
  import opened Common
  import opened AuthContext
  import opened AppRoutes

  const FillIn: string := "Please fill in all fields"
  const NameNeeded: string := "Please enter your name"
  const BadCredentials: string := "Invalid credentials. Please try again."

  /** The checks made before `login` is called. */
  function Precheck(isLogin: bool, email: string, password: string, name: string): (m: Option<string>)
    ensures email == "" || password == "" ==> m == Some(FillIn)
    ensures email != "" && password != "" && !isLogin && name == "" ==> m == Some(NameNeeded)
    ensures m.None? <==> email != "" && password != "" && (isLogin || name != "")
  {
    if email == "" || password == "" then Some(FillIn)
    else if !isLogin && name == "" then Some(NameNeeded)
    else None
  }

  class LoginScreen {
    var isLogin: bool
    var email: string
    var password: string
    var name: string
    var error: string

    constructor ()
      ensures isLogin && email == "" && password == "" && name == "" && error == ""
    {
      isLogin := true;
      email := "";
      password := "";
      name := "";
      error := "";
    }

    /** `handleSubmit`: returns the navigation target, if any. Any failure
        of `login` shows the same message, whatever its cause. */
    method HandleSubmit(store: AuthStore, signIn: SignInReply, profile: Reply<ProfileRow>, roleReply: Reply<RoleRow>)
      returns (target: Option<string>)
      modifies this`error, store
      ensures Precheck(isLogin, email, password, name).Some? ==>
                error == Precheck(isLogin, email, password, name).value && target.None? && store.state == old(store.state)
      ensures Precheck(isLogin, email, password, name).None? ==>
                LoginOutcome(store.state, target.None?) == LoginResult(old(store.state), signIn, profile, roleReply)
      ensures Precheck(isLogin, email, password, name).None? && target.None? ==> error == BadCredentials
      ensures target.Some? ==> target.value == "/home" && error == ""
    {
      error := "";
      var pre := Precheck(isLogin, email, password, name);
      if pre.Some? {
        error := pre.value;
        return None;
      }
      var thrown := store.Login(signIn, profile, roleReply);
      if thrown {
        error := BadCredentials;
        return None;
      }
      target := Some("/home");
    }

    /** The mode link: switches between login and sign-up and clears the
        message. */
    method ToggleMode()
      modifies this`isLogin, this`error
      ensures isLogin == !old(isLogin) && error == ""
    {
      isLogin := !isLogin;
      error := "";
    }
  }

  /** Where a submission ends up once `AppRoutes` has mounted: a successful
      one navigates to `/home`, which shows the home page inside the layout,
      unless the account still has its temporary password, in which case
      the reset guard returns before the route component's effects and the
      render throws, on the login path as on `/home`. A failed one stays on
      the login screen, signed out when the sign-in itself failed. */
  lemma SubmitLands(prev: AuthState, signIn: SignInReply, profile: Reply<ProfileRow>, roleReply: Reply<RoleRow>)
    ensures var o := LoginResult(prev, signIn, profile, roleReply);
            !o.thrown && !IsTempPassword(signIn.user) ==> Shown(true, o.state, "/home") == Layout(HomePage)
    ensures var o := LoginResult(prev, signIn, profile, roleReply);
            !o.thrown && IsTempPassword(signIn.user) ==>
              Shown(true, o.state, "/") == HookOrderError && Shown(true, o.state, "/home") == HookOrderError
    ensures var o := LoginResult(prev, signIn, profile, roleReply);
            !signIn.SignedIn? ==> Shown(true, o.state, "/") == AuthScreen
  {
    var o := LoginResult(prev, signIn, profile, roleReply);
    assert LayoutPage("/home") == Some(HomePage);
  }

  /** A login with a temporary password, from the start of the application:
      the login screen is shown, the submission succeeds and asks for
      `/home`, and the next render of the routes throws. */
  method TempPasswordLogin(u: AuthUser, p: ProfileRow, roleReply: Reply<RoleRow>, email: string, password: string)
    returns (first: Screen, target: Option<string>, next: Screen)
    requires IsTempPassword(u) && p.fullName.Some? && email != "" && password != ""
    ensures first == AuthScreen
    ensures target == Some("/home")
    ensures next == HookOrderError
  {
    var store := new AuthStore();
    var routes := new RoutesState();
    first := routes.RenderAt(store.state, "/");
    var screen := new LoginScreen();
    screen.email := email;
    screen.password := password;
    target := screen.HandleSubmit(store, SignedIn(u), Rows(p), roleReply);
    next := routes.RenderAt(store.state, target.value);
  }
}
