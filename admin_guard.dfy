/** The administration guard: only a stored user whose role is ADMIN or
    MANAGER passes; anyone else is shown an alert and sent to the home page.
    The administration routes run the authentication guard first. */
module AdminGuard {
  import opened Wrappers
  import opened Models
  import AuthGuard

  const ADMIN: string := "ADMIN"
  const MANAGER: string := "MANAGER"
  const DeniedAlert: string := "Accesso negato: questa sezione è riservata agli amministratori"

  /** The guard's answer, the alert it raises and the navigation it starts. */
  datatype Decision = Decision(allowed: bool, alert: Option<string>, redirect: Option<AuthGuard.Redirect>)

  /** `canActivate`. */
  function CanActivate(currentUser: Option<User>): (d: Decision)
    ensures d.allowed <==> currentUser.Some? && (currentUser.value.role == ADMIN || currentUser.value.role == MANAGER)
    ensures d.allowed ==> d.alert.None? && d.redirect.None?
    ensures !d.allowed ==> d.alert == Some(DeniedAlert) && d.redirect == Some(AuthGuard.ToHome)
  {
    if currentUser.Some? && (currentUser.value.role == ADMIN || currentUser.value.role == MANAGER)
    then Decision(true, None, None)
    else Decision(false, Some(DeniedAlert), Some(AuthGuard.ToHome))
  }

  /** An administration route (`[AuthGuard, AdminGuard]`, no role list) opens
      exactly when the authentication guard with the list ["ADMIN", "MANAGER"]
      would: for a logged-in administrator or manager. */
  lemma AdminRouteAccess(token: Option<string>, currentUser: Option<User>, url: string)
    ensures var both := AuthGuard.CanActivate(token, currentUser, None, url).allowed && CanActivate(currentUser).allowed;
            && (both <==> AuthGuard.IsAuthenticated(token) && currentUser.Some?
                          && (currentUser.value.role == ADMIN || currentUser.value.role == MANAGER))
            && (both <==> AuthGuard.CanActivate(token, currentUser, Some([ADMIN, MANAGER]), url).allowed)
  {
    if currentUser.Some? && currentUser.value.role in [ADMIN, MANAGER] {
      assert currentUser.value.role == ADMIN || currentUser.value.role == MANAGER;
    }
  }
}
