/** The authentication context: the session-derived state every screen reads
    (user, role, club, whether the user is authenticated, whether the state is
    still loading, whether a password reset is forced), how it is restored
    when the application starts, and how login, logout and `setRole` change
    it. Backend replies are inputs. */
module AuthContext {
  import opened Common

  /** The application's user, built from the `users_profile` row. */
  datatype AppUser = AppUser(id: string, email: string, firstName: string, lastName: string, createdAt: string)

  /** The context state. `forcePasswordReset` is `None` when the key is
      absent (undefined), which logout produces. */
  datatype AuthState = AuthState(
    user: Option<AppUser>,
    role: Option<Role>,
    clubId: Option<string>,
    isAuthenticated: bool,
    isLoading: bool,
    forcePasswordReset: Option<bool>)

  /** The value stored under `temp_password` in the auth user's metadata:
      a boolean, or anything else (a string, a number). */
  datatype MetaValue = BoolValue(b: bool) | OtherValue(text: string)

  /** The auth user of a session or of a sign-in. */
  datatype AuthUser = AuthUser(id: string, tempPassword: Option<MetaValue>)

  /** What `getSession` yields: no session, a session, or an exception. */
  datatype SessionReply = NoSession | Session(user: AuthUser) | SessionThrows

  /** What `signInWithPassword` yields: an error, no user without an error,
      or a signed-in user. */
  datatype SignInReply = SignInRejected(message: string) | SignInNoUser | SignedIn(user: AuthUser)

  /** A `users_profile` row; `full_name` may be null in the database. */
  datatype ProfileRow = ProfileRow(id: string, email: string, fullName: Option<string>, createdAt: string)

  /** A `user_roles` row. */
  datatype RoleRow = RoleRow(role: Option<Role>, clubId: Option<string>)

  /** The state of the provider before the session is restored. */
  function Initial(): (s: AuthState)
    ensures s.isLoading && !s.isAuthenticated && s.user.None? && s.role.None? && s.clubId.None?
    ensures s.forcePasswordReset == Some(false)
  {
    AuthState(None, None, None, false, true, Some(false))
  }

  /** The signed-out, settled state with the given reset flag. */
  function Anonymous(force: Option<bool>): (s: AuthState)
    ensures !s.isLoading && !s.isAuthenticated && s.user.None? && s.role.None? && s.clubId.None?
    ensures s.forcePasswordReset == force
  {
    AuthState(None, None, None, false, false, force)
  }

  /** `user_metadata?.temp_password === true`: only the boolean `true`. */
  predicate IsTempPassword(u: AuthUser) {
    u.tempPassword == Some(BoolValue(true))
  }

  /** Truthiness of the context's `forcePasswordReset`. */
  predicate ForceReset(s: AuthState) {
    s.forcePasswordReset == Some(true)
  }

  /** A state is consistent when it has a user exactly when it is
      authenticated, and a signed-out state has no role and no club. */
  predicate Consistent(s: AuthState) {
    (s.isAuthenticated <==> s.user.Some?) &&
    (!s.isAuthenticated ==> s.role.None? && s.clubId.None?)
  }

  /** `full_name.split(' ')[0]`. */
  function FirstName(fullName: string): string {
    Split(fullName, ' ')[0]
  }

  /** `full_name.split(' ').slice(1).join(' ')`. */
  function LastName(fullName: string): string {
    Join(Split(fullName, ' ')[1..], ' ')
  }

  /** The first name is the text before the first space and the last name
      the text after it; a name without a space is all first name. */
  lemma NameSplit(fullName: string)
    ensures ' ' !in FirstName(fullName)
    ensures ' ' in fullName ==> FirstName(fullName) + " " + LastName(fullName) == fullName
    ensures ' ' !in fullName ==> FirstName(fullName) == fullName && LastName(fullName) == ""
  {
    var parts := Split(fullName, ' ');
    SplitPiecesHaveNoSeparator(fullName, ' ');
    SplitCount(fullName, ' ');
    JoinSplit(fullName, ' ');
    if ' ' in fullName {
      assert Join(parts, ' ') == parts[0] + [' '] + Join(parts[1..], ' ');
    }
  }

  /** The `AppUser` built from a profile row with a name. */
  function UserFrom(p: ProfileRow, fullName: string): AppUser {
    AppUser(p.id, p.email, FirstName(fullName), LastName(fullName), p.createdAt)
  }

  /** The authenticated state after a profile was found. A failed role query
      is only logged: its data is null, so the role and club are null. */
  function Authenticated(user: AppUser, roleReply: Reply<RoleRow>, temp: bool): (s: AuthState)
    ensures s.isAuthenticated && !s.isLoading && s.user == Some(user) && Consistent(s)
    ensures s.role == (if roleReply.Rows? then roleReply.data.role else None)
    ensures s.clubId == (if roleReply.Rows? then roleReply.data.clubId else None)
    ensures ForceReset(s) <==> temp
  {
    match roleReply
    case Rows(row) => AuthState(Some(user), row.role, row.clubId, true, false, Some(temp))
    case _ => AuthState(Some(user), None, None, true, false, Some(temp))
  }

  /** The state `initSession` settles in. A null `full_name` makes the name
      split throw, which the surrounding `catch` turns into the signed-out
      state. */
  function RestoreResult(session: SessionReply, profile: Reply<ProfileRow>, roleReply: Reply<RoleRow>): (s: AuthState)
    ensures !s.isLoading && Consistent(s)
    ensures s.isAuthenticated <==> session.Session? && profile.Rows? && profile.data.fullName.Some?
    ensures s.isAuthenticated ==> s.user.value.id == profile.data.id
    ensures ForceReset(s) <==>
              session.Session? && IsTempPassword(session.user) &&
              !(profile.Rows? && profile.data.fullName.None?)
    ensures s.forcePasswordReset.Some?
  {
    match session
    case NoSession => Anonymous(Some(false))
    case SessionThrows => Anonymous(Some(false))
    case Session(u) =>
      var temp := IsTempPassword(u);
      match profile
      case Rows(p) =>
        if p.fullName.None? then Anonymous(Some(false))
        else Authenticated(UserFrom(p, p.fullName.value), roleReply, temp)
      case _ => Anonymous(Some(temp))
  }

  /** The outcome of `login`: the state it leaves and whether it throws. */
  datatype LoginOutcome = LoginOutcome(state: AuthState, thrown: bool)

  /** `login`: the state is first marked loading. A rejected sign-in resets
      to the signed-out state and rethrows. A missing profile (or a failed
      profile query, whose error is ignored) throws 'Profile not found'
      without settling the state, and so does a null `full_name`. */
  function LoginResult(prev: AuthState, signIn: SignInReply, profile: Reply<ProfileRow>, roleReply: Reply<RoleRow>): (o: LoginOutcome)
    ensures !o.thrown <==> signIn.SignedIn? && profile.Rows? && profile.data.fullName.Some?
    ensures !signIn.SignedIn? ==> o.state == Anonymous(Some(false))
    ensures signIn.SignedIn? && o.thrown ==> o.state == prev.(isLoading := true)
    ensures !o.thrown ==> o.state.isAuthenticated && !o.state.isLoading && Consistent(o.state)
    ensures !o.thrown ==> o.state.user.value.id == profile.data.id
    ensures !o.thrown ==> (ForceReset(o.state) <==> IsTempPassword(signIn.user))
  {
    var loading := prev.(isLoading := true);
    match signIn
    case SignInRejected(_) => LoginOutcome(Anonymous(Some(false)), true)
    case SignInNoUser => LoginOutcome(Anonymous(Some(false)), true)
    case SignedIn(u) =>
      match profile
      case Rows(p) =>
        if p.fullName.None? then LoginOutcome(loading, true)
        else LoginOutcome(Authenticated(UserFrom(p, p.fullName.value), roleReply, IsTempPassword(u)), false)
      case _ => LoginOutcome(loading, true)
  }

  /** `logout`: signed out and settled, with the reset flag left undefined. */
  function LogoutResult(): (s: AuthState)
    ensures !s.isAuthenticated && !s.isLoading && Consistent(s)
    ensures !ForceReset(s) && s.forcePasswordReset.None?
  {
    Anonymous(None)
  }

  /** `setRole`: only the role changes. */
  function WithRole(prev: AuthState, r: Role): (s: AuthState)
    ensures s.role == Some(r)
    ensures s.user == prev.user && s.clubId == prev.clubId && s.isAuthenticated == prev.isAuthenticated
    ensures s.isLoading == prev.isLoading && s.forcePasswordReset == prev.forcePasswordReset
  {
    prev.(role := Some(r))
  }

  /** `setRole` keeps an authenticated state consistent but gives a
      signed-out state a role: consistency is not preserved in general. */
  lemma SetRoleConsistency(prev: AuthState, r: Role)
    ensures Consistent(prev) && prev.isAuthenticated ==> Consistent(WithRole(prev, r))
    ensures !prev.isAuthenticated ==> !Consistent(WithRole(prev, r))
  {
  }

  /** A session whose profile is missing but whose user carries the
      temporary-password marker restores to a signed-out state that still
      forces a password reset. */
  lemma RestoreSignedOutWithReset(u: AuthUser, roleReply: Reply<RoleRow>)
    requires IsTempPassword(u)
    ensures var s := RestoreResult(Session(u), NoData, roleReply);
            !s.isAuthenticated && ForceReset(s)
  {
  }

  /** The provider: the context state, updated in place by its operations. */
  class AuthStore {
    var state: AuthState

    constructor ()
      ensures state == Initial()
    {
      state := Initial();
    }

    /** The effect that restores the session when the provider mounts. */
    method InitSession(session: SessionReply, profile: Reply<ProfileRow>, roleReply: Reply<RoleRow>)
      modifies this
      ensures state == RestoreResult(session, profile, roleReply)
    {
      match session {
        case NoSession =>
          state := Anonymous(Some(false));
        case SessionThrows =>
          state := Anonymous(Some(false));
        case Session(u) =>
          var temp := IsTempPassword(u);
          if profile.Failed? || profile.NoData? {
            state := Anonymous(Some(temp));
          } else if profile.data.fullName.None? {
            state := Anonymous(Some(false));
          } else {
            var p := profile.data;
            state := Authenticated(UserFrom(p, p.fullName.value), roleReply, temp);
          }
      }
    }

    /** `login`; `thrown` tells whether the returned promise rejects. */
    method Login(signIn: SignInReply, profile: Reply<ProfileRow>, roleReply: Reply<RoleRow>) returns (thrown: bool)
      modifies this
      ensures LoginOutcome(state, thrown) == LoginResult(old(state), signIn, profile, roleReply)
    {
      state := state.(isLoading := true);
      if !signIn.SignedIn? {
        state := Anonymous(Some(false));
        return true;
      }
      if !profile.Rows? || profile.data.fullName.None? {
        return true;
      }
      var p := profile.data;
      state := Authenticated(UserFrom(p, p.fullName.value), roleReply, IsTempPassword(signIn.user));
      thrown := false;
    }

    method Logout()
      modifies this
      ensures state == LogoutResult()
    {
      state := Anonymous(None);
    }

    method SetRole(r: Role)
      modifies this
      ensures state == WithRole(old(state), r)
    {
      state := state.(role := Some(r));
    }
  }
}
