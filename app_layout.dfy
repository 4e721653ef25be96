/** The layout of the protected screens and its reset guard. */
module AppLayout {
  import opened Common

  /** The guard of the layout: a player whose password must be reset is
      sent to the reset screen from every other path. */
  function LayoutGuard(role: Option<Role>, forceReset: bool, path: string): (r: Option<Redirect>)
    ensures r.Some? <==> role == Some(Player) && forceReset && path != "/reset-password"
    ensures r.Some? ==> r.value == Redirect("/reset-password", true)
  {
    if role == Some(Player) && forceReset && path != "/reset-password" then Some(Redirect("/reset-password", true))
    else None
  }
}
