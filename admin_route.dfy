/** The guard around the administrator's pages. */
module AdminRoute {
  import opened JsText
  import opened Session

  /** What the guard does: render its children, or send the visitor to the login page. */
  datatype Guard = RenderChildren | RedirectToLogin

  /** The guard reads the session's top-level `role`, not the user's. */
  function Decide(session: Option<Session>): (r: Guard)
    ensures r == RenderChildren <==> session.Some? && session.value.role == Some("admin")
  {
    if session.None? || session.value.role != Some("admin") then RedirectToLogin else RenderChildren
  }

  /**
   * A session whose user is an administrator but which carries no top-level role
   * is sent to the login page.
   */
  lemma UserRoleNotConsulted(token: Option<string>, user: User)
    requires user.role == Some("admin")
    ensures Decide(Some(Session(token, None, Some(user)))) == RedirectToLogin
  {
  }
}
