# club-hub client core, modelled in Dafny

This project models the client of club-hub. The client is a single-page application for sports clubs. Super admins, club and center admins, coaches, parents and players sign in to it. Each of them sees the club's teams, players, events, calendar and messages. The server side (database, row-level policies, edge functions) is not part of this model. Every reply of the server is a parameter of the operation that receives it:

- a `Reply<T>` is rows, no data, or a failure with its message;
- an `Ack` is done, or rejected with a message.

Instants are integers of milliseconds since the epoch, as a JavaScript `Date` holds them. The browser's time zone is a `utcOffset` parameter in minutes.

One module per source file:

- `Common`: the JavaScript idioms the screens share, each with its properties proved. These are truthiness of texts, `x || null`, joins that come back as an object, an array or null, `split`/`join`, first-occurrence deduplication (`Set`), and a stable sort with `slice(0, limit)`.
- `AuthContext`: the authentication context, with the session restore, login, logout and role switch as functions on an `AuthState`. The `AuthStore` class holds that state and changes it in place.
- `AppRoutes`, `AppLayout`, `RoleRedirect`: the route table, its guards and the landing page per role. The forced-password-reset guard is modelled as written and as evidently intended.
- `AuthPage`, `ResetPassword`: the sign-in screen and the forced reset screen.
- `ClubContext`: the club of the signed-in user.
- Screens: `Home`, `AdminHome`, `TeamsPage`, `SharedTeams`, `TeamDetailAdmin`, `AdminPlayers`, `AdminCenters`, `AdminEvents`, `EventDetail`, `Players`, `ParentPlayers`, `PlayerDashboard`, `DashboardPlayer`, `ParentDashboard`, `DashboardParent`, `Profile`, `Messages`.
  - Each screen's state is a class whose fields are the component's state variables.
  - Each handler or effect is a method that receives the server's replies. Its `ensures` states the screen's whole new state.
  - What the screen derives from its state (the view, labels, filtered lists, messages) is a function with its properties proved.
- `CalendarGrid`, `MockCalendar`, `SharedCalendar`: the month grid of both calendar screens. It covers the Gregorian day numbering, weekdays, leading blanks, days with events and the dot rule.
- `MockData`: the demonstration data and its two query helpers.

## Model

| member | source | states |
|---|---|---|
| AppLayout.LayoutGuard | src/components/layout/AppLayout.tsx:9-12 | a player whose password must be reset is redirected (replace) to `/reset-password` from every other path, and no one else is ever redirected by the layout |
| RoleRedirect.RoleLanding | src/components/layout/RoleRedirect.tsx:5-19 | nothing without a role; a player lands on `/dashboard/player`, a parent on `/dashboard/parent`, a coach on `/teams`, every other role on `/`, always replacing the history entry |
| AppRoutes.ParamAfter | src/App.tsx:156-160 | a `:param` segment matches exactly a non-empty remainder without a slash after the prefix, and the path is the prefix followed by it |
| AppRoutes.Protected | src/App.tsx:40-48 | a signed-out user is redirected to `/`; a signed-in one sees the wrapped screen |
| AppRoutes.Render | src/App.tsx:64-167 | the element the body returns: a set reset flag redirects every path but `/reset-password` there, whether or not anyone is signed in; a layout page or the reset screen is only ever chosen for a signed-in user; whether React accepts the render is `Shown` |
| AppRoutes.Shown | src/App.tsx:53-120 | a render after the first one throws exactly when it reaches the two effects where the first did not, or the reverse; otherwise it shows what the body returns |
| AppRoutes.RenderAfterMount | src/App.tsx:53-120 | the first render runs on the provider's initial state, whose flag is unset, and so reaches the effects; after it, every render the reset guard takes throws, and every other render shows the route table |
| AppRoutes.LayoutGuardRedundant | src/App.tsx:64-66 | the route-level guard already keeps every flagged state from a layout page, so the layout's own guard never fires behind it |
| AppRoutes.SignedOutResetFails | src/App.tsx:40-66 | for a signed-out state with the flag set, the guard alone would send `/` to `/reset-password` and the protected route would send it back; after the mount, `/reset-password` redirects to `/` and the render at `/` throws |
| AppRoutes.RestoreLeadsToFailure | src/contexts/AuthContext.tsx:65-75 | a session whose user carries the temporary-password marker but has no profile row restores to such a state, and then every path throws, at once or after one redirect to `/` |
| AppRoutes.RenderIntended | src/App.tsx:64-66 | with the reset guard placed after the hooks, so that no render throws, and limited to signed-in users: a redirect to the reset screen happens for a flagged signed-in user off that screen, and a layout page is shown only to a signed-in unflagged user |
| AppRoutes.RedirectTargetsAreNotPages | src/App.tsx:125-162 | `/` and `/reset-password` are not layout routes |
| AppRoutes.IntendedRedirectsSettle | src/App.tsx:40-66 | under the intended guard, following any redirect once reaches a screen that does not redirect again |
| AppRoutes.PostLoginTarget | src/App.tsx:94-120 | a redirect is issued exactly for a signed-in super admin, parent, or player whose row has loaded, on `/` only; super admin to `/home`, parent to `/dashboard/parent`, player to `/dashboard/player` exactly when the player row has a club and to `/player/onboarding` otherwise |
| AppRoutes.PostLoginSettles | src/App.tsx:101 | at the target of the post-login redirect no further post-login redirect is issued |
| AppRoutes.LandingTablesDiffer | src/App.tsx:103-119 | the post-login table leaves a coach on `/` and sends a super admin to `/home`, whereas the role landing component sends a coach to `/teams` and a super admin to `/` |
| AppRoutes.OnboardingNotRouted | src/App.tsx:114-165 | the onboarding target of a player without a club renders the not-found screen |
| AppRoutes.RoutesState.constructor | src/App.tsx:58-59 | no player row, the lookup counts as loading, and no render has happened yet |
| AppRoutes.RoutesState.RenderAt | src/App.tsx:53-120 | the first render shows what the body returns and records whether it reached the effects; every later render keeps that record and shows what `Shown` gives for it |
| AppRoutes.RoutesState.StartLookup | src/App.tsx:71-89 | without a signed-in player user loading ends at once; otherwise the query is sent and, as written, the loading flag stays as it was while it runs; the row is untouched |
| AppRoutes.RoutesState.StartLookupIntended | src/App.tsx:71-89 | the intended start of the lookup: the redirect is held back exactly while a signed-in player's row is under way |
| AppRoutes.RoutesState.FinishLookup | src/App.tsx:80-85 | the row found is kept (null on no row or an error) and loading ends |
| AppRoutes.RoutesState.PostLoginRedirect | src/App.tsx:94-120 | the redirect issued is the post-login target of the current state |
| AppRoutes.PlayerRestoreAsWritten | src/App.tsx:71-120 | a player whose row has a club opens the application at `/` with a stored session, so the routes mount signed out and the restore then signs the player in: before the row arrives the redirect already sends the player to `/player/onboarding`, and once the row arrives no redirect corrects it |
| AppRoutes.PlayerRestoreIntended | src/App.tsx:71-120 | the same session restore with the intended lookup: no redirect while the row is under way, then the player dashboard |
| AuthContext.Initial | src/contexts/AuthContext.tsx:23-32 | the provider starts signed out, loading, with no user, role or club and the reset flag false |
| AuthContext.Anonymous | src/contexts/AuthContext.tsx:43-73 | the signed-out settled state carries exactly the given reset flag |
| AuthContext.NameSplit | src/contexts/AuthContext.tsx:82-83 | the first name has no space; when the full name has a space, first name, one space and last name rebuild it; otherwise the first name is all of it and the last name empty |
| AuthContext.Authenticated | src/contexts/AuthContext.tsx:87-105 | signed in, settled and consistent with the given user; role and club come from the role row, null when the query failed or found nothing; the reset flag is the temporary-password marker |
| AuthContext.RestoreResult | src/contexts/AuthContext.tsx:37-120 | the restored state is settled and consistent; it is signed in exactly with a session, a profile row and a non-null name; it forces a reset exactly for a marked session user unless the name is null (the thrown split lands in the catch) |
| AuthContext.LoginResult | src/contexts/AuthContext.tsx:125-189 | login succeeds exactly with a user, a profile row and a name; a rejected sign-in signs out and throws; a missing profile throws and leaves the state only marked loading; a success is signed in, settled, for the profile's id, forcing a reset exactly for a marked user |
| AuthContext.LogoutResult | src/contexts/AuthContext.tsx:194-204 | signed out, settled, consistent, with the reset flag left undefined |
| AuthContext.WithRole | src/contexts/AuthContext.tsx:206-208 | only the role changes |
| AuthContext.SetRoleConsistency | src/contexts/AuthContext.tsx:206-208 | setting the role keeps a signed-in consistent state consistent, and always breaks consistency of a signed-out one |
| AuthContext.RestoreSignedOutWithReset | src/contexts/AuthContext.tsx:55-75 | a marked session user without a profile row restores signed out with the reset flag set |
| AuthContext.AuthStore.constructor | src/contexts/AuthContext.tsx:23-32 | the store holds the initial state |
| AuthContext.AuthStore.InitSession | src/contexts/AuthContext.tsx:37-120 | the new state is the restored state of the session, profile and role replies |
| AuthContext.AuthStore.Login | src/contexts/AuthContext.tsx:125-189 | the new state and whether the call throws are the login outcome from the old state |
| AuthContext.AuthStore.Logout | src/contexts/AuthContext.tsx:194-204 | the new state is the logged-out state |
| AuthContext.AuthStore.SetRole | src/contexts/AuthContext.tsx:206-208 | the new state is the old one with the role replaced |
| AuthPage.Precheck | src/pages/Auth.tsx:23-31 | a missing email or password gives the fill-in message; in sign-up mode a missing name gives the name message; the checks pass exactly when neither applies |
| AuthPage.LoginScreen.constructor | src/pages/Auth.tsx:10-14 | login mode, empty fields, no message |
| AuthPage.LoginScreen.HandleSubmit | src/pages/Auth.tsx:19-39 | a failed check shows its message and leaves the session alone; otherwise the session becomes the login outcome, a thrown login shows the invalid-credentials message, and a success navigates to `/home` with no message |
| AuthPage.LoginScreen.ToggleMode | src/pages/Auth.tsx:137-140 | the mode flips and the message clears |
| AuthPage.SubmitLands | src/pages/Auth.tsx:33-38 | once the routes have mounted: after a successful login `/home` shows the home page; when the account still has its temporary password, the renders at `/` and `/home` throw; after a rejected sign-in `/` shows the login screen |
| AuthPage.TempPasswordLogin | src/pages/Auth.tsx:33-35 | from the start of the application, a login whose account has a temporary password first shows the login screen, then succeeds and asks for `/home`, and the next render of the routes throws |
| ClubContext.ClubFor | src/contexts/ClubContext.tsx:17-38 | a club exactly with a club id and a row; its fields are the row's renamed |
| ClubContext.ClubProvider.constructor | src/contexts/ClubContext.tsx:15 | no club |
| ClubContext.ClubProvider.FetchClub | src/contexts/ClubContext.tsx:17-38 | the club becomes the one for the id and reply, whatever was there before |
| TeamsPage.KeepRow | src/pages/Teams.tsx:113-115 | a membership row contributes its (first) team and player exactly when both are present (and, on the shared screen, the team has an id and a name) |
| TeamsPage.KeptMembers | src/pages/Teams.tsx:112-127 | a pair is kept exactly when some row contributes it |
| TeamsPage.PlayersOfMembers | src/pages/Teams.tsx:126 | a player is listed under a team exactly when some kept pair joins them |
| TeamsPage.PlayersOfAbsent | src/pages/Teams.tsx:118-126 | a team id no pair carries has no players |
| TeamsPage.Grouped | src/pages/Teams.tsx:110-129 | one group per distinct team id, in first-appearance order |
| TeamsPage.GroupedProps | src/pages/Teams.tsx:110-129 | the groups have distinct ids, there is a group exactly for every team id among the pairs, and each group lists exactly that team's players in row order |
| TeamsPage.GroupingStep | src/pages/Teams.tsx:117-126 | one step of the `Map` loop (create the group on first sight, then push the player) keeps the map equal to the reference grouping of the pairs seen |
| TeamsPage.PlayersOfSnoc | src/pages/Teams.tsx:126 | one more pair adds its player to its own team's list only, at the end |
| TeamsPage.GroupingStepKnown | src/pages/Teams.tsx:117-126 | a pair of a team already seen keeps the order and extends that team's group |
| TeamsPage.GroupingStepNew | src/pages/Teams.tsx:117-126 | a pair of a new team appends its id to the order and opens its group with its player |
| TeamsPage.KeptStep | src/pages/Teams.tsx:112-115 | the kept pairs of one more row are the previous ones plus what that row contributes |
| TeamsPage.GroupByTeam | src/pages/Teams.tsx:110-129 | the `Map`-based grouping loop returns exactly the reference grouping of the kept rows |
| TeamsPage.CoachTeams | src/pages/Teams.tsx:65-76 | one player-less team per team of the flattened coach rows, in order |
| TeamsPage.CoachTeamsMembers | src/pages/Teams.tsx:66-69 | a team is listed for the coach exactly when one of the coach's rows joins it |
| TeamsPage.ActivatePlayer | src/pages/Teams.tsx:218-231 | only the given player of the given team changes, to the activated marker; every team keeps its id, name, season and roster size |
| TeamsPage.ActivatePlayerEffect | src/pages/Teams.tsx:218-231 | after the update the player shows access, and repeating it changes nothing |
| TeamsPage.TeamsView | src/pages/Teams.tsx:144-146 | the spinner exactly while loading, then the error exactly with a message, then the empty state exactly with no teams |
| TeamsPage.TeamsScreen.constructor | src/pages/Teams.tsx:35-37 | no teams, loading, no error |
| TeamsPage.TeamsScreen.LoadTeams | src/pages/Teams.tsx:39-139 | nothing without a user id; a coach's failed query shows the error and keeps the list, otherwise the coach's teams; a parent's teams are the grouping of the rows, empty on an error; any other role gets an empty list; loading ends |
| TeamsPage.TeamsScreen.ActivationSucceeded | src/pages/Teams.tsx:217-231 | the list becomes the activation update of the old list; nothing else changes |
| SharedTeams.CoachEntryOf | src/pages/shared/Teams.tsx:186-189 | a coach entry keeps the coach's user id and shows the profile name read through `users_profile`, or a dash without one |
| SharedTeams.AdminCoachEntryOf | src/pages/shared/Teams.tsx:165-188 | a coach row of the super admin's query carries its profile under the alias `coach`, so the mapping, which reads `users_profile`, gives the coach's user id and the dash |
| SharedTeams.AdminTeamOf | src/pages/shared/Teams.tsx:175-191 | a super admin's team keeps id, name and season; its players are the flattened joined players (none without the join) and its coaches one entry per aliased coach row (none without the join) |
| SharedTeams.AdminTeams | src/pages/shared/Teams.tsx:174-192 | one listed team per row, in order |
| SharedTeams.AdminCoachNamesLost | src/pages/shared/Teams.tsx:165-188 | as written, every listed team of the super admin has one coach entry per coach row, each with the coach's user id and the dash, whatever name the profile holds |
| SharedTeams.Unlisted | src/pages/shared/Teams.tsx:262-271 | coach and parent teams are listed in order without a coach list |
| SharedTeams.ParentGroupsHaveIdAndName | src/pages/shared/Teams.tsx:248-271 | every group of the strict grouping has a non-empty id and name, so the second filter removes nothing |
| SharedTeams.SharedLoad | src/pages/shared/Teams.tsx:142-274 | as written, loading ends exactly for a super admin, coach or parent; an error shows exactly for a failed super-admin or coach query and keeps the old list; otherwise the list is the role's own result; any other role keeps the spinner and the old list |
| SharedTeams.LoadEffect | src/pages/shared/Teams.tsx:276-278 | the load runs exactly for a user with an id and a role, and its result is then the as-written load; otherwise the state is kept |
| SharedTeams.OtherRolesSpinForever | src/pages/shared/Teams.tsx:142-274 | a club admin's load never clears `loading`; from the screen's first state the club admin sees the spinner whether or not the effect runs |
| SharedTeams.SharedLoadIntended | src/pages/shared/Teams.tsx:134-135 | with the fall-through of the coach and parent teams screen: loading always ends, the three roles load as written, any other role gets an empty list and no error |
| SharedTeams.PlayerRedirect | src/pages/shared/Teams.tsx:120-124 | exactly a player is redirected (replace) to `/player/dashboard` |
| SharedTeams.Toggle | src/pages/shared/Teams.tsx:472 | the clicked team opens exactly when it was not the open one; otherwise nothing is open |
| SharedTeams.CoachFetchOnToggle | src/pages/shared/Teams.tsx:473-475 | the team's coaches are fetched exactly when a super admin opens it |
| SharedTeams.ToggleTwice | src/pages/shared/Teams.tsx:472 | clicking the same team twice restores the state when it or no team was open, and closes everything otherwise |
| SharedTeams.SharedTeamsView | src/pages/shared/Teams.tsx:283-287 | spinner exactly while loading; then the error exactly with a message; then the team list exactly with teams; an empty list shows the super admin's and the parent's own empty states |
| SharedTeams.SharedTeamsScreen.constructor | src/pages/shared/Teams.tsx:33-54 | no teams, loading, no error, no coaches, nothing open, an empty closed form |
| SharedTeams.SharedTeamsScreen.LoadTeams | src/pages/shared/Teams.tsx:142-274 | the list, loading flag and error become the as-written load result; the coaches, expansion and form do not change |
| SharedTeams.SharedTeamsScreen.LoadTeamCoaches | src/pages/shared/Teams.tsx:77-92 | only the team's coach entry is replaced, by the rows or an empty list; no other field changes |
| SharedTeams.SharedTeamsScreen.CreateTeam | src/pages/shared/Teams.tsx:94-114 | nothing without club, name and season; a rejected insert keeps the form and does not reload; a stored one clears and closes the form and reloads |
| SharedTeams.SharedTeamsScreen.ToggleTeam | src/pages/shared/Teams.tsx:470-476 | the open team becomes the toggle of the old one, and the team whose coaches are fetched is the one the rule names; only the open team changes |
| PlayerDashboard.PresentTeams | src/pages/player/PlayerDashboard.tsx:77-78 | the joined teams that are present: a team is kept exactly when some row joins it; one row gives its team or nothing |
| PlayerDashboard.PresentTeamsAppend | src/pages/player/PlayerDashboard.tsx:77-78 | the filter keeps the rows' order: two runs of rows give the first run's teams followed by the second's |
| PlayerDashboard.UniqueTeams | src/pages/player/PlayerDashboard.tsx:73-82 | the `Set`-driven loop returns the first-occurrence filter by id of the present teams (distinct ids, every id kept, first occurrence kept, order of first appearance: see `Common.DedupByKeys`, `Common.DedupByKeepsFirst`, `Common.DedupByOrder`) |
| PlayerDashboard.Age | src/pages/player/PlayerDashboard.tsx:101-111 | no birth date gives the dash; otherwise the age counts completed years: its birthday has come and the next one has not |
| PlayerDashboard.AgeUnique | src/pages/player/PlayerDashboard.tsx:101-111 | any count of completed years is the computed age, so the age is the only such count |
| PlayerDashboard.DashboardView | src/pages/player/PlayerDashboard.tsx:94-96 | spinner exactly while loading, then the error exactly with a message, then the blocked state exactly without a player; content always has a player |
| PlayerDashboard.PlayerDashboardScreen.constructor | src/pages/player/PlayerDashboard.tsx:25-28 | no player, no teams, loading, no error |
| PlayerDashboard.PlayerDashboardScreen.Load | src/pages/player/PlayerDashboard.tsx:30-89 | nothing without a user id; a missing player row shows 'Acceso bloqueado'; a failed team query keeps the player and shows its error; otherwise the teams are the de-duplicated present teams; loading ends |
| DashboardPlayer.UiStateOf | src/pages/dashboard/player/PlayerDashboard.tsx:79-80 | loading exactly while loading, then blocked exactly without a player, active exactly with one |
| DashboardPlayer.DashboardView | src/pages/dashboard/player/PlayerDashboard.tsx:82-86 | spinner exactly while loading, then the error exactly with a message (even for a blocked player), then the blocked state; content exactly for an active player without an error |
| DashboardPlayer.DashboardScreen.constructor | src/pages/dashboard/player/PlayerDashboard.tsx:26-29 | no player, no teams, loading, no error |
| DashboardPlayer.DashboardScreen.Load | src/pages/dashboard/player/PlayerDashboard.tsx:33-75 | nothing without a user id; a failed single-row player query shows the profile error; a failed team query keeps the player and shows its error; otherwise the teams are the joined teams of the memberships, in order; loading ends |
| DashboardParent.StatsOf | src/pages/dashboard/parent/ParentDashboard.tsx:44-70 | the children counter is the number of children; the teams counter is zero without children and otherwise the number of distinct team ids of the membership rows; the pending counter is the number of rows of the pending query, zero without data |
| DashboardParent.PendingIds | src/pages/dashboard/parent/ParentDashboard.tsx:60-64 | as many ids as there are children without access; an id is listed exactly when some child without access has it; one child gives its id or nothing |
| DashboardParent.PendingIdsAppend | src/pages/dashboard/parent/ParentDashboard.tsx:60-64 | the ids keep the children's order: two runs of children give the first run's ids followed by the second's |
| DashboardParent.DashboardsAgree | src/pages/dashboard/parent/ParentDashboard.tsx:59-70 | when the pending query returns exactly the children without access, this dashboard shows the same counters as the parent dashboard that counts them on the client |
| DashboardParent.DashboardScreen.constructor | src/pages/dashboard/parent/ParentDashboard.tsx:21-23 | no counters, loading, no error |
| DashboardParent.DashboardScreen.LoadStats | src/pages/dashboard/parent/ParentDashboard.tsx:25-76 | nothing without a user id; a failed children query shows the error and keeps the counters; otherwise the counters are those of the replies; loading ends |
| ParentDashboard.PendingCount | src/pages/parent/ParentDashboard.tsx:47 | at most the number of children; zero exactly when every child has access; all of them exactly when none has; one child counts one exactly when it has no access |
| ParentDashboard.PendingCountAppend | src/pages/parent/ParentDashboard.tsx:47 | the count of two runs of children is the sum of their counts |
| ParentDashboard.DistinctIds | src/pages/parent/ParentDashboard.tsx:57 | the distinct ids of the rows: as many as the set of ids, the same members, no repetition |
| ParentDashboard.TeamsCount | src/pages/parent/ParentDashboard.tsx:50-59 | zero for a parent without children (no query); otherwise the number of distinct team ids of the membership rows |
| ParentDashboard.StatsOf | src/pages/parent/ParentDashboard.tsx:46-65 | the children counter is the number of children, the pending counter the number without access (never more than the children), the teams counter the distinct teams |
| ParentDashboard.ChildTeamName | src/pages/parent/ParentDashboard.tsx:193-194 | the team name of the child's first membership, or 'Sin equipo' without one |
| ParentDashboard.AccessLabel | src/pages/parent/ParentDashboard.tsx:216-224 | 'Activo' exactly for a child with access, 'Acceso pendiente' exactly for one without |
| ParentDashboard.TypeIcon | src/pages/parent/ParentDashboard.tsx:262-265 | an icon exactly for training, match and meeting |
| ParentDashboard.UpperChar | src/pages/parent/ParentDashboard.tsx:271 | a lower-case ASCII letter becomes upper case; anything else is unchanged |
| ParentDashboard.Capitalize | src/pages/parent/ParentDashboard.tsx:271 | same length; the first character upper-cased and the rest unchanged |
| ParentDashboard.CapitalizeIdempotent | src/pages/parent/ParentDashboard.tsx:271 | capitalising twice is capitalising once |
| ParentDashboard.EventTitle | src/pages/parent/ParentDashboard.tsx:271 | the event's title when it has a non-empty one, otherwise its capitalised type |
| ParentDashboard.EventTeamName | src/pages/parent/ParentDashboard.tsx:277 | the team's non-empty name, or 'Sin equipo' |
| ParentDashboard.ParentDashboardScreen.constructor | src/pages/parent/ParentDashboard.tsx:21-25 | no counters, children or events, loading, no error |
| ParentDashboard.ParentDashboardScreen.LoadStats | src/pages/parent/ParentDashboard.tsx:27-113 | nothing without a user id; a failed children query shows the error and keeps everything; otherwise the counters are those of the children and teams, the preview is the preview rows, and the events are loaded only when the children have teams; loading ends |
| AdminHome.EventCardOf | src/pages/admin/Home.tsx:53-58 | a card keeps the row and aliases its start, end and type |
| AdminHome.EventCards | src/pages/admin/Home.tsx:52-59 | one card per row, in order |
| AdminHome.MessageCardOf | src/pages/admin/Home.tsx:79-85 | a message keeps id, title, body and date, with the author's name or a dash |
| AdminHome.MessageCards | src/pages/admin/Home.tsx:78-86 | one card per row, in order |
| AdminHome.GreetingFor | src/pages/admin/Home.tsx:169-174 | morning exactly before 12, afternoon exactly from 12 to before 18, evening exactly from 18 |
| AdminHome.GreetingMonotone | src/pages/admin/Home.tsx:169-174 | a later hour never gets an earlier greeting |
| AdminHome.HeaderName | src/pages/admin/Home.tsx:185 | the user's non-empty first name, otherwise the welcome text |
| AdminHome.AssignedIds | src/pages/admin/Home.tsx:119 | only non-empty ids, and exactly the non-empty ids of the rows |
| AdminHome.ExclusionList | src/pages/admin/Home.tsx:124 | the ids joined by commas, between parentheses |
| AdminHome.ExclusionListRoundTrip | src/pages/admin/Home.tsx:123-128 | splitting the text between the parentheses at commas gives back the ids, when none contains a comma |
| AdminHome.UnassignedPlayers | src/pages/admin/Home.tsx:121-135 | with some assigned player, the count of the `not in` query; otherwise the count of all players; a null count reads as zero |
| AdminHome.AlertsOf | src/pages/admin/Home.tsx:151-155 | the three alert counters, each a null count read as zero |
| AdminHome.AlertCards | src/pages/admin/Home.tsx:203-241 | no cards but for the super admin; each card is shown exactly when its count is positive |
| AdminHome.AdminHomeScreen.constructor | src/pages/admin/Home.tsx:14-37 | loading, empty lists, zero counters and alerts |
| AdminHome.AdminHomeScreen.Load | src/pages/admin/Home.tsx:39-167 | each list is replaced only when its query returns data; a parent's children only for a parent with a user; counters and alerts for the super admin only; loading ends |
| Home.EventsAfter | src/pages/Home.tsx:31-40 | the events become one card per row only on a successful reply with data; otherwise unchanged |
| Home.MessagesAfter | src/pages/Home.tsx:56-66 | a failed query keeps the messages; an empty success clears them; rows become one card each |
| Home.MessagesAgreeWithAdmin | src/pages/Home.tsx:56-66 | this screen and the administrative home end with the same messages exactly unless an empty success clears a non-empty list |
| Home.ChildrenAfter | src/pages/Home.tsx:69-75 | a failed query keeps the children; otherwise they become the rows, empty without data |
| Home.ClubAfter | src/pages/Home.tsx:78-85 | without a club id or on a failed query the club is kept; a row replaces it; no row clears it |
| Home.ClubName | src/pages/Home.tsx:115 | the club's non-empty name, or nothing |
| Home.HomeScreen.constructor | src/pages/Home.tsx:14-19 | loading, empty lists, no club |
| Home.HomeScreen.Load | src/pages/Home.tsx:21-89 | each list and the club follow their reply rules above, the children only for a parent with a user; loading ends |
| MockData.MockEvents | src/data/mockData.ts:54-96 | four events, the k-th starting k days after the data is built and ending after it starts |
| MockData.MockMessages | src/data/mockData.ts:98-129 | three messages, the k-th created k days before the data is built |
| MockData.StartingAfter | src/data/mockData.ts:135 | exactly the events starting strictly after now, and never more events than the list has |
| MockData.StartingAfterAppend | src/data/mockData.ts:135 | the filter keeps the events' order and repetitions: filtering two lists one after the other gives the two filtered lists one after the other |
| MockData.UpcomingEventsProps | src/data/mockData.ts:132-139 | the upcoming events ascend by start and are events of the list starting after now; with no (or a zero) limit they are all of those, and a positive limit keeps the first min(limit, count) of the full sorted list |
| MockData.RecentMessagesProps | src/data/mockData.ts:142-148 | the recent messages are newest first and come from the list; with no (or a zero) limit they are all of them, and a positive limit keeps the first min(limit, count) of the full sorted list |
| MockData.StartingAfterAll | src/data/mockData.ts:135 | a list whose events all start after now is kept whole, in order |
| MockData.MockEventsAllUpcoming | src/data/mockData.ts:54-139 | before the first demonstration event starts, the upcoming events are all four, in their written order |
| MockData.MockMessagesInOrder | src/data/mockData.ts:98-148 | the demonstration messages are already newest first, so the recent messages are all three in written order |
| Messages.Shown | src/pages/Messages.tsx:8-10 | the list shown is a permutation of the messages, newest first |
| Messages.ShownIsRecent | src/pages/Messages.tsx:8-10 | the screen's sort gives the same list as the recent-messages helper without a limit |
| Messages.BadgesOf | src/pages/Messages.tsx:28-55 | the alert icon and the important badge exactly for important messages; the team badge exactly with a team; the club-wide badge exactly with a club and no team |
| Messages.ScopeBadgesExclusive | src/pages/Messages.tsx:46-55 | never both scope badges, and one of them exactly when the message has a club or a team |
| CalendarGrid.Weekday | src/pages/shared/CalendarPage.tsx:141 | `getDay()` of a day number is between 0 (Sunday) and 6 |
| CalendarGrid.DaysInMonth | src/pages/shared/CalendarPage.tsx:38-40 | every month has 28 to 31 days |
| CalendarGrid.LeapStep | src/pages/shared/CalendarPage.tsx:38-40 | the count of leap years grows by one exactly at a Gregorian leap year |
| CalendarGrid.KnownFirstDays | src/pages/shared/CalendarPage.tsx:141 | January 1970 starts on day 0, a Thursday; January 2024 has one blank cell; March 2000 (after a leap February of a year divisible by 400) has three |
| CalendarGrid.Next | src/pages/shared/CalendarPage.tsx:119 | the month after a month is a month |
| CalendarGrid.Prev | src/pages/shared/CalendarPage.tsx:106 | the month before a month is a month |
| CalendarGrid.PrevNext | src/pages/shared/CalendarPage.tsx:106-119 | the two arrows undo each other |
| CalendarGrid.NextMonthFollows | src/pages/shared/CalendarPage.tsx:38-40 | the next month starts the day after this one ends, so successive grids neither overlap nor leave a gap |
| CalendarGrid.Days | src/pages/shared/CalendarPage.tsx:38-40 | the days of the month are its consecutive day numbers from the first, one per day of the month |
| CalendarGrid.LeadingBlanks | src/pages/shared/CalendarPage.tsx:141-143 | the blank cells are the weekday of the first day, fewer than seven |
| CalendarGrid.GridColumns | src/pages/shared/CalendarPage.tsx:139-173 | every day lands in the column of its own weekday and the grid needs at most six rows |
| CalendarGrid.EventsOn | src/pages/shared/CalendarPage.tsx:76-80 | exactly the events starting on the day in the browser's zone |
| CalendarGrid.EventsOnAppend | src/pages/shared/CalendarPage.tsx:77-79 | the filter keeps the events' order |
| CalendarGrid.Selected | src/pages/shared/CalendarPage.tsx:76-80 | no events without a selected day; otherwise the events of that day |
| CalendarGrid.HasEventIffListed | src/pages/shared/CalendarPage.tsx:83-84 | a day has an event exactly when selecting it lists at least one |
| CalendarGrid.DotRule | src/pages/shared/CalendarPage.tsx:167 | the dot marks exactly the unselected days whose selection would list events; the selected day never has one |
| CalendarGrid.MonthView.constructor | src/pages/shared/CalendarPage.tsx:31-32 | the current month is shown and no day is selected |
| CalendarGrid.MonthView.NextMonth | src/pages/shared/CalendarPage.tsx:119 | the month shown becomes the next one |
| CalendarGrid.MonthView.PrevMonth | src/pages/shared/CalendarPage.tsx:106 | the month shown becomes the previous one |
| CalendarGrid.MonthView.SelectDay | src/pages/shared/CalendarPage.tsx:153 | the clicked day becomes the selected one |
| MockCalendar.StartDates | src/pages/CalendarPage.tsx:23 | one start date per event, in order |
| MockCalendar.EventDays | src/pages/CalendarPage.tsx:23-25 | in any zone, exactly the four days after the local day the data was built carry a dot-worthy event |
| MockCalendar.HasEventDayAgrees | src/pages/CalendarPage.tsx:23-25 | looking through the list of start dates decides the same days as looking at the events, so both calendar screens share the rule |
| MockCalendar.TypeBadge | src/pages/CalendarPage.tsx:125-127 | the strong badge exactly for a match |
| SharedCalendar.TeamsLine | src/pages/shared/CalendarPage.tsx:235-238 | the teams line shows exactly for a non-empty list, and lists those names |
| SharedCalendar.CardTargetRoutes | src/pages/shared/CalendarPage.tsx:208 | for an id that is one path segment, a card leads to the detail screen of that event |
| SharedCalendar.CalendarScreen.constructor | src/pages/shared/CalendarPage.tsx:31-35 | no events, loading, no error, the current month, nothing selected |
| SharedCalendar.CalendarScreen.Load | src/pages/shared/CalendarPage.tsx:43-73 | a failure shows its message and keeps the events; otherwise the events are the rows, none without data; loading ends |
| SharedCalendar.CalendarScreen.View | src/pages/shared/CalendarPage.tsx:86-87 | spinner exactly while loading, then the error exactly with one |
| EventDetail.Normalise | src/pages/EventDetail.tsx:95-104 | one row per fetched row with its id and status; a null player becomes the empty list, a single object a one-element list, a list stays as it is |
| EventDetail.RowName | src/pages/EventDetail.tsx:388 | a name exactly when the row has a player, and then the first player's name |
| EventDetail.WithStatus | src/pages/EventDetail.tsx:141-143 | same length, ids and players; rows with the id take the new status, every other row is unchanged |
| EventDetail.WithStatusLastWins | src/pages/EventDetail.tsx:141-143 | two updates of the same row leave the status of the last one |
| EventDetail.WithStatusCommutes | src/pages/EventDetail.tsx:141-143 | updates of two different rows give the same list in either order |
| EventDetail.TeamsLine | src/pages/EventDetail.tsx:370-376 | the teams line shows exactly when the event has teams, and then lists their names in order |
| EventDetail.IsoSlices | src/pages/EventDetail.tsx:118-120 | slicing an ISO text at 0..10 and 11..16 gives back its date and its hours and minutes |
| EventDetail.MinuteOfDay | src/pages/EventDetail.tsx:119-120 | a time field denotes a minute of the day, between 0 and 1439 |
| EventDetail.TruncMinute | src/pages/EventDetail.tsx:118-120 | the instant with its seconds and milliseconds dropped: at most the instant, less than a minute before it, a whole number of minutes |
| EventDetail.DayAndMinute | src/pages/EventDetail.tsx:118-120 | the date field and the start time field together locate the instant truncated to the minute |
| EventDetail.FieldsOf | src/pages/EventDetail.tsx:110-121 | the editor takes the event's title and type, the UTC day of its start, and the UTC minutes of day of its start and end |
| EventDetail.SaveUnchangedShifts | src/pages/EventDetail.tsx:118-120 | as written, reading the UTC fields back in local time moves an unchanged start by the zone's offset |
| EventDetail.SaveUnchangedShiftsExample | src/pages/EventDetail.tsx:154-155 | two hours ahead of UTC, an event starting at 16:00 UTC is saved as starting at 14:00 UTC |
| EventDetail.SaveUnchangedKeepsTimes | src/pages/EventDetail.tsx:154-155 | reading the fields in UTC, saving an unchanged editor keeps the start to the minute and the end's time of day |
| EventDetail.Saved | src/pages/EventDetail.tsx:149-176 | as written, a saved event takes the new title and type, and a start and end read in the browser's zone on the start's date; it keeps its id, club, cancellation and teams |
| EventDetail.SavedIntended | src/pages/EventDetail.tsx:118-155 | the intended save reads the date and times in UTC, the zone the editor was filled in; everything else as in the written save |
| EventDetail.SaveUnchangedEvent | src/pages/EventDetail.tsx:118-155 | saving an unchanged editor: as written the start moves back by the zone's offset; as intended it keeps the start to the minute and the end's time of day; the two agree exactly in a zone at UTC |
| EventDetail.CancelNotice | src/pages/EventDetail.tsx:219-223 | the notice goes to the event's club, titled 'Event cancelled', its body the event's title followed by ' has been cancelled.' |
| EventDetail.EventDetailScreen.constructor | src/pages/EventDetail.tsx:39-56 | no event, no attendance, loading, nothing saving or failed, editor and confirmations closed, empty fields with type 'training' |
| EventDetail.EventDetailScreen.View | src/pages/EventDetail.tsx:58-59 | the event shows exactly when loading is over and an event is there; the controls show exactly for coaches and super admins |
| EventDetail.EventDetailScreen.Load | src/pages/EventDetail.tsx:63-108 | the event is replaced only when its query succeeds; loading ends; the attendance is the normalised rows, empty without data; nothing else changes |
| EventDetail.EventDetailScreen.OpenEditor | src/pages/EventDetail.tsx:110-121 | the editor opens and, with an event, its fields are filled from it; nothing else changes |
| EventDetail.EventDetailScreen.UpdateStatus | src/pages/EventDetail.tsx:125-147 | the row stops saving; a failure marks that row as failed and keeps the list; a success clears the failure and sets the status of that row only |
| EventDetail.EventDetailScreen.SaveEventChanges | src/pages/EventDetail.tsx:149-180 | nothing happens with an empty field; a failure keeps the editor and the event; a success closes the editor and stores the event as written saves it, with the instants read in the browser's zone |
| EventDetail.EventDetailScreen.DeleteEvent | src/pages/EventDetail.tsx:182-201 | the screen goes back exactly when there is an event and the delete succeeds; the deleting flag ends false |
| EventDetail.EventDetailScreen.CancelEvent | src/pages/EventDetail.tsx:203-224 | a notice is posted exactly when there is an event and the update succeeds, and then the event is marked cancelled; otherwise it is unchanged |
| TeamDetailAdmin.ScreenRole | src/pages/admin/TeamDetailAdmin.tsx:52 | the screen's role is a non-empty global role when one is set, otherwise 'super_admin' |
| TeamDetailAdmin.DefaultRoleGrantsAll | src/pages/admin/TeamDetailAdmin.tsx:52-54 | with no global role (or an empty one), the screen grants both editing and access activation, whatever role the user has |
| TeamDetailAdmin.SelectedAsWritten | src/pages/admin/TeamDetailAdmin.tsx:81-87 | the roster row keeps the id, name and birth date of the player and has no user id |
| TeamDetailAdmin.Entries | src/pages/admin/TeamDetailAdmin.tsx:92 | one join contributes exactly its players, plus a null entry exactly when it was null |
| TeamDetailAdmin.Roster | src/pages/admin/TeamDetailAdmin.tsx:92 | the flattened roster holds exactly the players of the joins, and a null entry exactly when some join was null |
| TeamDetailAdmin.SelectAllMembers | src/pages/admin/TeamDetailAdmin.tsx:81-92 | a player is in the joins of a query exactly when it is the selection of one of the team's players |
| TeamDetailAdmin.RosterAsWritten | src/pages/admin/TeamDetailAdmin.tsx:81-92 | the roster as written is the roster of the joins with only the selected columns |
| TeamDetailAdmin.ActivationOfferedToAll | src/pages/admin/TeamDetailAdmin.tsx:81-92 | as written, every player of the team appears in the rendered roster without a user id, and with a role allowed to activate every roster entry offers activation |
| TeamDetailAdmin.ActivationOfferedToActivePlayer | src/pages/admin/TeamDetailAdmin.tsx:81-92 | a player with a linked user is not offered activation, but the roster of a team holding just that player shows it without its user id, offered activation |
| TeamDetailAdmin.SelectedIntended | src/pages/admin/TeamDetailAdmin.tsx:19-24 | the intended roster row keeps every field, the user id included |
| TeamDetailAdmin.ActivationOfferedExactly | src/pages/admin/TeamDetailAdmin.tsx:81-92 | with the intended select, the roster entries offering activation are exactly the team's players without access, and only when the role allows it |
| TeamDetailAdmin.ExclusionText | src/pages/admin/TeamDetailAdmin.tsx:122 | the filter text is a non-empty list between parentheses: the ids joined by commas, or the placeholder id when that join is empty |
| TeamDetailAdmin.ExclusionTextRoundTrip | src/pages/admin/TeamDetailAdmin.tsx:115-122 | for comma-free ids the text between the parentheses splits back into exactly the team's ids, and into the placeholder alone for a team without players |
| TeamDetailAdmin.WithoutPlayer | src/pages/admin/TeamDetailAdmin.tsx:173 | the available list keeps exactly the players whose id differs from the added one, and never grows |
| TeamDetailAdmin.WithoutPlayerAppend | src/pages/admin/TeamDetailAdmin.tsx:173 | the filter keeps the other players' order and repetitions: filtering two lists one after the other gives the two filtered lists one after the other |
| TeamDetailAdmin.ActivationError | src/pages/admin/TeamDetailAdmin.tsx:253-266 | no message exactly when the response is ok with no error; the body's error when it has one; otherwise 'Failed to activate access' |
| TeamDetailAdmin.TeamDetailScreen.constructor | src/pages/admin/TeamDetailAdmin.tsx:33-52 | the screen role as above, no team, an empty roster, loading, no error, every panel and modal closed, empty fields |
| TeamDetailAdmin.TeamDetailScreen.View | src/pages/admin/TeamDetailAdmin.tsx:196-197 | after loading, a failure exactly when there is an error or no team, showing the error or 'Team not found' |
| TeamDetailAdmin.TeamDetailScreen.Load | src/pages/admin/TeamDetailAdmin.tsx:56-100 | loading ends; a failed team query sets 'Failed to load team' and keeps the rest; otherwise the team is stored and the roster replaced by the roster as written unless its query fails; the panels, the available list and the form fields do not change |
| TeamDetailAdmin.TeamDetailScreen.LoadAvailablePlayers | src/pages/admin/TeamDetailAdmin.tsx:104-129 | nothing without a team; otherwise the available list is replaced unless the query fails, and its loading flag ends false; nothing else changes |
| TeamDetailAdmin.TeamDetailScreen.ToggleAddPlayer | src/pages/admin/TeamDetailAdmin.tsx:294-299 | the panel flips, and the available players are loaded exactly when it opens; when it closes, the available list and its loading flag stay |
| TeamDetailAdmin.TeamDetailScreen.AssignPlayer | src/pages/admin/TeamDetailAdmin.tsx:152-174 | nothing changes without a team or on a refusal; otherwise the roster is reloaded and the player leaves the available list; nothing else changes |
| TeamDetailAdmin.TeamDetailScreen.RemovePlayer | src/pages/admin/TeamDetailAdmin.tsx:177-195 | nothing changes without a team or on a refusal; otherwise the roster is reloaded; nothing else changes |
| TeamDetailAdmin.TeamDetailScreen.ReloadRoster | src/pages/admin/TeamDetailAdmin.tsx:132-149 | the roster is replaced by the roster as written of the reply unless the query fails |
| TeamDetailAdmin.TeamDetailScreen.CreatePlayer | src/pages/admin/TeamDetailAdmin.tsx:200-232 | a row is sent exactly with a team that has a club and a name; the new id is added exactly when the insert succeeds, and then the form is cleared and closed and the roster reloaded; without a new id the roster, name, birth date and panel stay, and without a request the creating flag too; the activation fields never change |
| TeamDetailAdmin.TeamDetailScreen.ActivatePlayerAccess | src/pages/admin/TeamDetailAdmin.tsx:239-268 | the message shown is the activation error; on success the modal closes, its fields are cleared and the roster reloaded; activating ends false; on a failure the modal, both fields and the roster stay; the add-player fields never change |
| AdminPlayers.Normalised | src/pages/admin/Players.tsx:111-130 | the player keeps its id, name, birth date and user id; its club is the object, the first of a list, or none; each membership's team is normalised the same way, and no memberships list gives no teams |
| AdminPlayers.NormalisedAll | src/pages/admin/Players.tsx:111-131 | one normalised player per fetched row, in order |
| AdminPlayers.NormalisedFixpoint | src/pages/admin/Players.tsx:111-130 | a normalised player read back as objects normalises to itself |
| AdminPlayers.TeamName | src/pages/admin/Players.tsx:338-339 | the first membership's team name when there is one, otherwise 'Sin equipo' |
| AdminPlayers.ClubName | src/pages/admin/Players.tsx:349 | the club's name when there is a club, otherwise '—' |
| AdminPlayers.TeamOptions | src/pages/admin/Players.tsx:310-311 | the form offers exactly the teams of the selected club, and never more teams than there are |
| AdminPlayers.TeamOptionsAppend | src/pages/admin/Players.tsx:310-311 | the options keep the teams' order and repetitions: filtering two lists one after the other gives the two filtered lists one after the other |
| AdminPlayers.TeamOptionsDisjoint | src/pages/admin/Players.tsx:310-311 | no team is offered for two different clubs |
| AdminPlayers.Guard | src/pages/admin/Players.tsx:62-66 | a redirect exactly for a known role other than the super admin, and then to '/home', replacing the history entry |
| AdminPlayers.AssignmentOf | src/pages/admin/Players.tsx:163-178 | an assignment exactly when a team is chosen and neither id is empty or the text 'undefined', and then of that player to that team |
| AdminPlayers.PlayersAdminScreen.constructor | src/pages/admin/Players.tsx:45-56 | empty lists, loading, the form closed and empty, not creating |
| AdminPlayers.PlayersAdminScreen.Load | src/pages/admin/Players.tsx:71-136 | nothing for other roles; for the super admin clubs and teams are the replies or empty, the players the normalised rows or empty, and loading ends; the form fields and the creating flag do not change |
| AdminPlayers.PlayersAdminScreen.SelectClub | src/pages/admin/Players.tsx:270-273 | the chosen club is set and the chosen team cleared |
| AdminPlayers.PlayersAdminScreen.Options | src/pages/admin/Players.tsx:310-311 | every offered team belongs to the chosen club |
| AdminPlayers.PlayersAdminScreen.CreatePlayer | src/pages/admin/Players.tsx:141-234 | a request exactly with a club, a name and a birth date; an assignment exactly when the player was created and the assignment rule holds; a creation clears the fields and reloads the list; otherwise the fields and the list stay; the form stays open; without a request the creating flag stays; clubs, teams and loading never change |
| AdminEvents.NewEventOf | src/pages/admin/Events.tsx:55-64 | the row carries the club, the team, the title and the type, and both instants on the form's date read in local time |
| AdminEvents.NewEventDuration | src/pages/admin/Events.tsx:55-56 | the event lasts exactly from the start time to the end time whatever the zone, and an end time before the start time gives an event ending before it starts |
| AdminEvents.AdminEventsScreen.constructor | src/pages/admin/Events.tsx:11-24 | an empty form of type 'training', no teams, not creating, no success, no error |
| AdminEvents.AdminEventsScreen.ShowsForm | src/pages/admin/Events.tsx:26-34 | the form is shown exactly to coaches and super admins; parents and players never see it |
| AdminEvents.AdminEventsScreen.LoadTeams | src/pages/admin/Events.tsx:36-45 | with a club the teams are the reply or empty; without one they stay |
| AdminEvents.AdminEventsScreen.CreateEvent | src/pages/admin/Events.tsx:47-80 | a row is inserted exactly for a complete form; an incomplete one shows the fill-in message and keeps the form; a failure shows the failure text and keeps the form; a success clears every field but the type and shows the success |
| AdminCenters.ClubOf | src/pages/admin/Centers.tsx:181 | none exactly when no club has the id; otherwise the first club with that id |
| AdminCenters.ClubLine | src/pages/admin/Centers.tsx:191 | the club's name when the center's club is found, otherwise nothing |
| AdminCenters.AddressLine | src/pages/admin/Centers.tsx:193 | the address line shows exactly for a non-empty address, and shows it |
| AdminCenters.CreatedCenterShows | src/pages/admin/Centers.tsx:181-193 | a center read back after its creation shows the name of the club it was created in, and its address exactly when one was given |
| AdminCenters.CentersScreen.constructor | src/pages/admin/Centers.tsx:27-36 | empty lists, loading, the form closed and empty, not creating |
| AdminCenters.CentersScreen.Guard | src/pages/admin/Centers.tsx:41-45 | a redirect exactly for a known role other than the super admin |
| AdminCenters.CentersScreen.Load | src/pages/admin/Centers.tsx:50-67 | nothing for other roles; for the super admin both lists are the replies or empty, and loading ends |
| AdminCenters.CentersScreen.OpenForm | src/pages/admin/Centers.tsx:123 | the form opens |
| AdminCenters.CentersScreen.CancelForm | src/pages/admin/Centers.tsx:169 | the form closes |
| AdminCenters.CentersScreen.CreateCenter | src/pages/admin/Centers.tsx:72-105 | a row is sent exactly with a club and a name, with a null address when empty; a refusal keeps the form and the list; a success clears and closes the form and replaces the list by the reload, empty when it fails |
| Profile.FormOf | src/pages/shared/Profile.tsx:44-48 | each editor text is the club's field when present, otherwise the empty text |
| Profile.FormRoundTrip | src/pages/shared/Profile.tsx:44-62 | a saved form read back into the editor gives the same form |
| Profile.SaveUnchangedClub | src/pages/shared/Profile.tsx:44-62 | saving an unchanged editor keeps a present name and turns a missing one into the empty text |
| Profile.MenuItems | src/pages/shared/Profile.tsx:96-113 | 'Gestionar eventos' exactly for coaches and super admins, followed by the three entries everyone has |
| Profile.SwitchLeavesSuperAdmin | src/pages/shared/Profile.tsx:221-226 | no demo switch gives the super admin role, and after a switch only the coach still manages events |
| Profile.SavePrecheck | src/pages/shared/Profile.tsx:313-331 | the club message without a club, the team message for a team event with no team, and nothing to show exactly when there is a club, the teams rule holds and a token exists |
| Profile.RequestOf | src/pages/shared/Profile.tsx:338-346 | the team ids are sent exactly for a team event, and then they are the selected teams; club, scope and title as given |
| Profile.SaveResult | src/pages/shared/Profile.tsx:348-365 | created exactly for an ok answer with no JSON error; the JSON error when there is one; the generic texts for other failures and for a network failure |
| Profile.ScopeBadge | src/pages/shared/Profile.tsx:491 | 'Club' exactly for a global event, otherwise 'Equipo' |
| Profile.CreateEventDialog.constructor | src/pages/shared/Profile.tsx:300-307 | closed, a global event of type 'training', empty texts, no teams, not saving, no error |
| Profile.CreateEventDialog.HandleSave | src/pages/shared/Profile.tsx:310-366 | a request is sent exactly when the precheck passes; a failed precheck shows its message; the caller's refresh runs and the dialog closes exactly when the answer means created; otherwise its message shows; saving ends false |
| Profile.ProfileScreen.constructor | src/pages/shared/Profile.tsx:27-84 | no club, empty editor, every panel closed, no teams or events, no error |
| Profile.ProfileScreen.FetchClub | src/pages/shared/Profile.tsx:34-52 | with a club id and a found club, the card shows it and the editor is filled from it; otherwise both stay; nothing else changes |
| Profile.ProfileScreen.HandleEditClub | src/pages/shared/Profile.tsx:54-65 | the editor's texts are sent; on success the card shows them and the editor closes; on failure both stay; the saving flag ends false, and the dialogs and event list do not change |
| Profile.ProfileScreen.FetchTeams | src/pages/shared/Profile.tsx:115-122 | coaches and super admins with a club get the club's teams or none; otherwise the teams stay |
| Profile.ProfileScreen.LoadEvents | src/pages/shared/Profile.tsx:456-470 | the events are the reply or empty; the error shows exactly on a failure; loading ends |
| Profile.ProfileScreen.ShowsEditClub | src/pages/shared/Profile.tsx:263 | 'Editar club' shows exactly when the account menu is open and the user is a super admin |
| ResetPassword.Validate | src/pages/player/ResetPassword.tsx:19-27 | the length message for fewer than 8 characters, then the mismatch message; nothing exactly when the password is long enough and confirmed |
| ResetPassword.ResetNeverReachesTarget | src/pages/player/ResetPassword.tsx:41-49 | as written the context keeps its reset flag, so the render at the target throws; with the guard placed after the hooks the user would be sent back to the reset screen; and with the flag cleared the target renders the not-found screen |
| ResetPassword.TargetNotRouted | src/pages/player/ResetPassword.tsx:49 | `/player/dashboard` is not a route: for an unflagged state it renders the not-found screen |
| ResetPassword.Cleared | src/pages/player/ResetPassword.tsx:41-47 | the intended context after the reset: the flag cleared, everything else kept |
| ResetPassword.IntendedResetLands | src/pages/player/ResetPassword.tsx:49 | with the flag cleared and the dashboard route as target, a signed-in player lands on the player dashboard, and that render is accepted |
| ResetPassword.ResetPasswordScreen.constructor | src/pages/player/ResetPassword.tsx:11-14 | empty texts, no error, not loading |
| ResetPassword.ResetPasswordScreen.HandleSubmit | src/pages/player/ResetPassword.tsx:16-50 | the password is sent exactly when it validates; a failed check or update shows its message; a success keeps the screen loading and redirects to `/player/dashboard`, replacing the history entry; the context is never changed, so for a flagged user the render at the target throws and for any other it is the not-found screen |
| Players.ChildrenView | src/pages/Players.tsx:64-65 | nothing for roles other than parent; for parents the spinner exactly while loading, the list otherwise |
| Players.LoadedPlayers | src/pages/Players.tsx:30 | the rows of a successful load, the empty list otherwise |
| Players.LoadError | src/pages/Players.tsx:29 | the load message exactly on a failure |
| Players.AccessLabel | src/pages/Players.tsx:143 | 'Access active' exactly for a child with a user, otherwise 'No access' |
| Players.ErrorAfterInsertAsWritten | src/pages/Players.tsx:36-55 | as written, a refusal sets the failure message and a success keeps the previous message |
| Players.StaleFailureAfterRetry | src/pages/Players.tsx:36-55 | a failed attempt followed by a successful one still shows the failure |
| Players.ErrorAfterInsert | src/pages/Players.tsx:47-48 | with the message cleared at the start, a message shows exactly after a refusal |
| Players.ErrorReflectsLastAttempt | src/pages/Players.tsx:36-55 | the corrected message agrees with the written one from a clean start, and after every refusal whatever came before |
| Players.PlayersScreen.constructor | src/pages/Players.tsx:11-18 | no players, loading, no error, the form closed and empty, not creating |
| Players.PlayersScreen.Load | src/pages/Players.tsx:20-34 | nothing for roles other than parent; for parents the list and the message follow the reply and loading ends |
| Players.PlayersScreen.ToggleAdd | src/pages/Players.tsx:73 | the form flips |
| Players.PlayersScreen.CreatePlayer | src/pages/Players.tsx:36-62 | a row is sent exactly with a name and a club; the message is the written one, so a success keeps any earlier failure; a refusal keeps the form; a success clears the name and birth date, closes the form and reloads the list; the club stays |
| ParentPlayers.InsertErrorText | src/pages/parent/Players.tsx:60 | the prefix followed by the database message, or by 'Desconocido' without one |
| ParentPlayers.ClubLine | src/pages/parent/Players.tsx:157 | the club's name when there is a club, even an empty one, otherwise the dash |
| ParentPlayers.MessageAfter | src/pages/parent/Players.tsx:59-77 | the success text exactly when the row was stored; the insert error text on a refusal; the unexpected-error text on an exception |
| ParentPlayers.ParentPlayersScreen.constructor | src/pages/parent/Players.tsx:15-22 | no players, loading, no error, the form closed and empty, not creating |
| ParentPlayers.ParentPlayersScreen.Load | src/pages/parent/Players.tsx:24-39 | nothing for roles other than parent; for parents the list and the message follow the reply and loading ends |
| ParentPlayers.ParentPlayersScreen.CreatePlayer | src/pages/parent/Players.tsx:41-81 | without a name, a user or a club only the missing-data message; otherwise the row is sent under the user and the club, the message is the outcome's, a refusal or exception keeps the form, and a success clears and closes it and reloads the list |
| Common.FlattenMembers | src/pages/Teams.tsx:68 | an element is in the flattened list exactly when some joined value holds it |
| Common.OrNull | src/pages/admin/Centers.tsx:82 | an empty text is stored as null, any other text as itself |
| Common.OrNullRoundTrip | src/pages/admin/Centers.tsx:82 | reading a stored value back as a text gives the text, and it is present exactly when the text is not empty |
| Common.JoinSplit | src/contexts/AuthContext.tsx:82-83 | joining the pieces of a split with the same separator gives back the text |
| Common.SplitCount | src/contexts/AuthContext.tsx:82-83 | a text without the separator splits into itself alone, and a text with it into at least two pieces |
| Common.SplitPiecesHaveNoSeparator | src/contexts/AuthContext.tsx:82-83 | no piece of a split holds the separator |
| Common.SplitJoin | src/pages/admin/TeamDetailAdmin.tsx:122 | splitting a join of separator-free pieces gives back the pieces |
| Common.DedupByKeys | src/pages/player/PlayerDashboard.tsx:73-82 | the deduplicated list has distinct keys, and exactly the keys of the input |
| Common.DedupByKeepsFirst | src/pages/player/PlayerDashboard.tsx:73-82 | every kept element is the first element of the input with its key |
| Common.DedupByOrder | src/pages/player/PlayerDashboard.tsx:73-82 | kept elements follow the order of their keys' first occurrences |
| Common.DistinctCount | src/pages/parent/ParentDashboard.tsx:57 | the size of the set of ids is the length of the deduplicated ids, and at most the number of ids |
| Common.SortByKeyProps | src/data/mockData.ts:136 | the sort returns a permutation of its input, ascending by key |
| Common.SortByKeySorted | src/data/mockData.ts:136 | the sorted list ascends by key |
| Common.SortByKeyPermutes | src/data/mockData.ts:136 | the sorted list holds exactly the input's elements, as many times each |
| Common.SortByKeySortedInput | src/data/mockData.ts:136 | a list already in order is left as it is |
| Common.SliceLimit | src/data/mockData.ts:138 | no limit or zero keeps everything; a positive limit keeps the first min(limit, length); a negative one drops that many from the end |

## Left out

- I/O and the server: every query, insert, update, remote procedure and edge function is a reply passed in. Row-level policies, ordering and `.limit(n)` done by the server are taken as given in the replies.
- Concurrency: each async handler is one sequential run with its replies fixed in advance. Interleavings of effects, unmounting during a request and stale closures are not modelled.
- An exception thrown inside a handler or effect is not modelled, except where the code catches it (the parent children screen, the event dialog, access activation). The error React throws when a render of the routes calls a different number of hooks is modelled (AppRoutes.Shown).
- Toasts, `alert`, `console` logging, translations (`t(...)`), icons, styling and layout are not modelled. Labels are the texts the code writes literally.
- Date formatting with date-fns and the parsing of ISO texts are not modelled. Date fields are day numbers, and time fields are minutes of the day.
- The browser's zone is one fixed `utcOffset` for every instant (CalendarGrid.LocalDay, EventDetail.LocalInstant). A zone with daylight-saving time has different offsets on different dates, and that is not modelled.
- DashboardPlayer: the age shown (`Math.floor(diff / 365.25 days)`) is floating point and is not modelled. PlayerDashboard.Age models the integer age of the other dashboard.
- ParentDashboard.UpperChar: upper-cases ASCII letters only, while `toUpperCase` also maps other letters.
- ResetPassword.Validate: counts characters, while JavaScript's `length` counts UTF-16 code units, so a password of astral characters may pass here and fail there.
- MockData.MockEvents, MockData.MockMessages: every datum calls `Date.now()` on its own; one instant stands for all of them here.
- The home screen's greeting (src/pages/Home.tsx:91-96) is the same rule as AdminHome.GreetingFor and is not modelled twice.
- The team detail screen takes its permissions from a global `window.userRole` that nothing sets, so it defaults to the super admin (TeamDetailAdmin.DefaultRoleGrantsAll).
- In `TeamDetailAdmin.TeamDetailScreen.CreatePlayer`, the result of the second insert (the team membership) is ignored, as in the code.
- A null join in the team detail roster is kept as a null entry (TeamDetailAdmin.Roster). The render that would then fail is not modelled.
- Profile's event creation dialog: the instance the profile screen places directly (src/pages/shared/Profile.tsx:291) is never opened. The instance inside the event list dialog, opened by its "+ Crear evento" button, is reachable; its refresh is the list dialog's `loadEvents`. Both are modelled by `CreateEventDialog`, and the list dialog by `LoadEvents` and `ScopeBadge`.
- The administrative events screen declares an `events` list that nothing loads. Its hooks run after an early return for other roles. Both are left as they are.
- The administrative players form stays open after a creation, as in the code.
- After a creation, a failed reload empties the list on the children screens and the centers screen, as in the code.
- The centers screen keeps its loading text for every role other than the super admin.
- The parent children screen shows its success text in its error line.
- The general home screen reads children by `parent_id`, the administrative home by `parent_user_id`. Both are modelled as written.
- The shared teams screen: the unused coach state (available coaches, assigning) and the club list loaded for the creation form are not modelled.
- The coach list that the super admin's team query maps is never rendered: the expanded card shows the list loaded per team (SharedTeams.SharedTeamsScreen.LoadTeamCoaches), which selects `users_profile`. So the lost names (SharedTeams.AdminCoachNamesLost) do not show, and they are not listed as a finding.
- AppRoutes.ParamAfter, AppRoutes.LayoutPage: the router matches paths without regard to letter case and accepts trailing slashes (`/Home` and `/home/` show the home page). The model matches the literal path only, because case folding is not modelled. Every statement about a path holds for the path as written.
- The route guards take the context's state as given. The sign-in round trip to the auth server is the reply passed to AuthContext.LoginResult.
- Not part of this model:
  - the access activation modals;
  - the coach creation modal and the coaches screen;
  - the edge function client;
  - language switching;
  - the bottom navigation;
  - the team list, the player row and the non-admin team detail;
  - the empty and error components;
  - the older profile page;
  - the shared type declarations.

## Findings

The screen classes follow the code as written. Each corrected definition stands beside them, with the intended property proved about it.

| source | as written | input that shows it | evidently intended | confidence | as-written member | corrected member |
|---|---|---|---|---|---|---|
| src/App.tsx:53-120 | the forced-reset guard returns before the two effects. The first render runs on the provider's unflagged state and calls them, so every later render the guard takes calls fewer hooks and React throws, which unmounts the application. The guard also applies to signed-out states | a login on '/' with a temporary password; also a stored session whose user has `temp_password` set but no profile row | the guard comes after the hooks and applies to signed-in users only, so no render throws and every redirect settles | not executed | AuthPage.TempPasswordLogin | AppRoutes.IntendedRedirectsSettle |
| src/pages/player/ResetPassword.tsx:41-49 | after the new password is stored, the context keeps its reset flag and the user is sent to '/player/dashboard': with the flag set that render throws, and without it the path is not a route | a signed-in player with the flag set submits a valid password | the context's flag is cleared and the user lands on '/dashboard/player' | not executed | ResetPassword.ResetNeverReachesTarget | ResetPassword.IntendedResetLands |
| src/pages/shared/Teams.tsx:142-274 | for a club admin or a center admin no branch of the load ends the loading, so the spinner never goes away | a club admin opens the teams screen | every role's branch ends the loading | not executed | SharedTeams.OtherRolesSpinForever | SharedTeams.SharedLoadIntended |
| src/pages/EventDetail.tsx:118-155 | the editor is filled with the UTC date and time, but saving reads them as local time | two hours ahead of UTC, opening an event that starts at 16:00 UTC and saving it unchanged | saving unchanged fields keeps the event's times | not executed | EventDetail.SaveUnchangedShiftsExample | EventDetail.SaveUnchangedEvent |
| src/pages/admin/TeamDetailAdmin.tsx:81-87 | the roster query does not select `user_id`, so every player is offered "Activate access" | a player in the roster whose user id is set | only players without access are offered activation | not executed | TeamDetailAdmin.ActivationOfferedToActivePlayer | TeamDetailAdmin.ActivationOfferedExactly |
| src/pages/Players.tsx:36-55 | the message is not cleared when a creation starts, so a success after a failure still shows the failure | an insert refused, then an insert stored | the message reflects the last attempt only | not executed | Players.StaleFailureAfterRetry | Players.ErrorReflectsLastAttempt |
| src/App.tsx:71-89 | the player lookup does not mark itself as loading, and the first render's lookup already ended the loading, so the post-login redirect runs without the row and sends the player to onboarding | a player whose row has a club opens the application at '/' with a stored session | the redirect waits for the signed-in player's row and sends the player to '/dashboard/player' | not executed | AppRoutes.PlayerRestoreAsWritten | AppRoutes.PlayerRestoreIntended |
