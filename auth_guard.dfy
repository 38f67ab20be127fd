/** The authentication guard: an unauthenticated visitor is sent to the login
    page with the requested URL to return to; an authenticated one passes,
    unless the route names the roles allowed and the user's role is not among
    them, in which case the user is sent to the forbidden page. The stored
    token, the stored user and the route's role list are parameters. */
module AuthGuard {
  import opened Wrappers
  import opened Models

  /** Where a refused navigation is redirected. */
  datatype Redirect =
    | ToLogin(returnUrl: string)
    | ToForbidden
    | ToHome

  /** The guard's answer and the navigation it starts. */
  datatype Decision = Decision(allowed: bool, redirect: Option<Redirect>)

  /** `!!getToken()`: a stored, non-empty token. */
  predicate IsAuthenticated(token: Option<string>) {
    token.Some? && token.value != ""
  }

  /** `canActivate`. `requiredRoles` is the route's `roles` entry (absent when
      the route names none); an empty list is still present, and an empty role
      string counts as no role. */
  function CanActivate(token: Option<string>, currentUser: Option<User>,
                       requiredRoles: Option<seq<string>>, url: string): (d: Decision)
    ensures d.allowed <==> IsAuthenticated(token)
                           && (requiredRoles.None?
                               || (currentUser.Some? && currentUser.value.role != ""
                                   && currentUser.value.role in requiredRoles.value))
    ensures d.allowed <==> d.redirect.None?
    ensures !IsAuthenticated(token) ==> d.redirect == Some(ToLogin(url))
    ensures IsAuthenticated(token) && !d.allowed ==> d.redirect == Some(ToForbidden)
  {
    if IsAuthenticated(token) then
      match requiredRoles
      case None => Decision(true, None)
      case Some(roles) =>
        if currentUser.Some? && currentUser.value.role != "" && currentUser.value.role in roles
        then Decision(true, None)
        else Decision(false, Some(ToForbidden))
    else Decision(false, Some(ToLogin(url)))
  }

  /** A route listing no roles at all (an empty list) is closed to everyone. */
  lemma EmptyRoleListDeniesAll(token: Option<string>, currentUser: Option<User>, url: string)
    ensures !CanActivate(token, currentUser, Some([]), url).allowed
  {
  }

  /** Widening a route's role list never takes access away. */
  lemma MoreRolesNoLessAccess(token: Option<string>, currentUser: Option<User>,
                              roles: seq<string>, more: seq<string>, url: string)
    requires forall r :: r in roles ==> r in more
    ensures CanActivate(token, currentUser, Some(roles), url).allowed ==>
              CanActivate(token, currentUser, Some(more), url).allowed
    ensures CanActivate(token, currentUser, Some(more), url).allowed ==>
              CanActivate(token, currentUser, None, url).allowed
  {
  }

  /** The URL asked for does not change whether the guard lets the user through. */
  lemma UrlOnlyShapesRedirect(token: Option<string>, currentUser: Option<User>,
                              roles: Option<seq<string>>, url1: string, url2: string)
    ensures CanActivate(token, currentUser, roles, url1).allowed
            == CanActivate(token, currentUser, roles, url2).allowed
  {
  }
}
