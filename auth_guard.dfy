/** `AuthGuard`: whether a protected page shows its content, and where the
    effect sends the browser otherwise. */
module AuthGuard {
  import opened Wrappers
  import opened Auth

  /** What the guard does: render the children or not, and the path it
      pushes, if any. */
  datatype Decision = Decision(renders: bool, redirect: Option<string>)

  const DefaultAllowedRoles: seq<UserRole> := [Admin]
  const DefaultRedirect: string := "/login"

  /** The effect: where `router.push` sends the browser. */
  function GuardRedirect(isAuthenticated: bool, user: Option<User>, allowedRoles: seq<UserRole>,
                         redirectTo: string): Option<string>
  {
    if !isAuthenticated then Some(redirectTo)
    else if user.Some? && user.value.role !in allowedRoles then
      Some(if user.value.role == StudentRole then "/mi-portal" else "/")
    else None
  }

  /** The render: `null` or the children. */
  function GuardRenders(isAuthenticated: bool, user: Option<User>, allowedRoles: seq<UserRole>): bool {
    if !isAuthenticated then false
    else if user.Some? && user.value.role !in allowedRoles then false
    else true
  }

  function Guard(isAuthenticated: bool, user: Option<User>, allowedRoles: seq<UserRole>,
                 redirectTo: string): (d: Decision)
    ensures !isAuthenticated ==> !d.renders && d.redirect == Some(redirectTo)
    ensures isAuthenticated && user.None? ==> d.renders && d.redirect.None?
    ensures isAuthenticated && user.Some? && user.value.role in allowedRoles ==> d.renders && d.redirect.None?
    ensures isAuthenticated && user.Some? && user.value.role !in allowedRoles ==>
              !d.renders && d.redirect == Some(if user.value.role == StudentRole then "/mi-portal" else "/")
  {
    Decision(GuardRenders(isAuthenticated, user, allowedRoles),
             GuardRedirect(isAuthenticated, user, allowedRoles, redirectTo))
  }

  /** The render and the effect agree: the content shows exactly when the
      browser is not sent away. */
  lemma RenderOrRedirect(isAuthenticated: bool, user: Option<User>, allowedRoles: seq<UserRole>, redirectTo: string)
    ensures Guard(isAuthenticated, user, allowedRoles, redirectTo).renders
            <==> Guard(isAuthenticated, user, allowedRoles, redirectTo).redirect.None?
  {
  }

  /** With the defaults, an administrator sees the page, a student is sent
      to the portal, and a visitor to the login page. */
  lemma DefaultGuard(user: User)
    ensures Guard(true, Some(user), DefaultAllowedRoles, DefaultRedirect)
            == if user.role == Admin then Decision(true, None) else Decision(false, Some("/mi-portal"))
    ensures Guard(false, None, DefaultAllowedRoles, DefaultRedirect) == Decision(false, Some("/login"))
  {
  }
}
