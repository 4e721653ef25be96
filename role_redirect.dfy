/** The role landing component: the screen each role is sent to. */
module RoleRedirect {
  import opened Common

  /** The redirect rendered for a role; nothing is rendered without one. */
  function RoleLanding(role: Option<Role>): (r: Option<Redirect>)
    ensures r.None? <==> role.None?
    ensures r.Some? ==> r.value.replace
    ensures role == Some(Player) ==> r == Some(Redirect("/dashboard/player", true))
    ensures role == Some(Parent) ==> r == Some(Redirect("/dashboard/parent", true))
    ensures role == Some(Coach) ==> r == Some(Redirect("/teams", true))
    ensures role.Some? && role.value !in {Player, Parent, Coach} ==> r == Some(Redirect("/", true))
  {
    match role
    case None => None
    case Some(Player) => Some(Redirect("/dashboard/player", true))
    case Some(Parent) => Some(Redirect("/dashboard/parent", true))
    case Some(Coach) => Some(Redirect("/teams", true))
    case Some(_) => Some(Redirect("/", true))
  }
}
