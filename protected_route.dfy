/**
 * The route guard, in its two versions. Both run the same chain once the
 * session has loaded: sign-in, then the required role, then the subscription.
 * The router version returns the redirect as its render; the app-router
 * version redirects from an effect and, separately, renders nothing while a
 * redirect condition holds.
 */
module ProtectedRoute {
  import opened Wrappers
  import opened Records
  import Auth

  datatype RequiredRole = RequireSuperAdmin | RequireAdmin | RequireViewer

  /** A navigation: the target path and, for the login and subscribe pages, where the visitor came from. */
  datatype Redirect = Redirect(to: string, from: Option<string>)

  /** The redirect of the first check that fires, or nothing when the visitor may see the page. */
  function FirstRedirect(user: Option<User>, required: Option<RequiredRole>, requireSubscription: bool, from: string)
    : (r: Option<Redirect>)
    ensures user.None? ==> r == Some(Redirect("/login", Some(from)))
    ensures user.Some? && required == Some(RequireSuperAdmin) && !Auth.IsSuperAdminOf(user) ==> r == Some(Redirect("/matches", None))
    ensures user.Some? && required == Some(RequireAdmin) && !Auth.IsAdminOf(user) ==> r == Some(Redirect("/matches", None))
    ensures r == Some(Redirect("/subscribe", Some(from))) <==>
      user.Some? && !RoleRefused(user, required)
      && requireSubscription && !Auth.HasSubscriptionOf(user) && !Auth.IsAdminOf(user)
    ensures r.None? <==>
      user.Some? && !RoleRefused(user, required)
      && !(requireSubscription && !Auth.HasSubscriptionOf(user) && !Auth.IsAdminOf(user))
  {
    if user.None? then Some(Redirect("/login", Some(from)))
    else if required == Some(RequireSuperAdmin) && !Auth.IsSuperAdminOf(user) then Some(Redirect("/matches", None))
    else if required == Some(RequireAdmin) && !Auth.IsAdminOf(user) then Some(Redirect("/matches", None))
    else if requireSubscription && !Auth.HasSubscriptionOf(user) && !Auth.IsAdminOf(user) then
      Some(Redirect("/subscribe", Some(from)))
    else None
  }

  /** The required role is not held: superadmin without superadmin, or admin without either admin role. */
  predicate RoleRefused(user: Option<User>, required: Option<RequiredRole>)
  {
    (required == Some(RequireSuperAdmin) && !Auth.IsSuperAdminOf(user))
    || (required == Some(RequireAdmin) && !Auth.IsAdminOf(user))
  }

  /** Requiring the viewer role adds no check. Admins never need a subscription. */
  lemma ViewerRoleAddsNothing(user: Option<User>, requireSubscription: bool, from: string)
    ensures FirstRedirect(user, Some(RequireViewer), requireSubscription, from)
         == FirstRedirect(user, None, requireSubscription, from)
    ensures Auth.IsAdminOf(user) ==>
      FirstRedirect(user, None, requireSubscription, from) == FirstRedirect(user, None, false, from)
  {
  }

  datatype Render = Spinner | Navigate(redirect: Redirect) | Children | Nothing

  /** The router version: spinner while loading, then the first redirect or the children. */
  function RouterGuard(loading: bool, user: Option<User>, required: Option<RequiredRole>,
                       requireSubscription: bool, location: string): (r: Render)
    ensures loading ==> r == Spinner
    ensures !loading && user.None? ==> r == Navigate(Redirect("/login", Some(location)))
    ensures !loading && user.Some? && RoleRefused(user, required) ==> r == Navigate(Redirect("/matches", None))
    ensures !loading && user.Some? && !RoleRefused(user, required)
            && requireSubscription && !Auth.HasSubscriptionOf(user) && !Auth.IsAdminOf(user) ==>
      r == Navigate(Redirect("/subscribe", Some(location)))
    ensures !loading && FirstRedirect(user, required, requireSubscription, location).Some? ==>
      r == Navigate(FirstRedirect(user, required, requireSubscription, location).value)
    ensures r == Children <==> !loading && FirstRedirect(user, required, requireSubscription, location).None?
  {
    if loading then Spinner
    else match FirstRedirect(user, required, requireSubscription, location)
      case Some(d) => Navigate(d)
      case None => Children
  }

  /** `pathname || '/'`. */
  function FromPath(pathname: Option<string>): (r: string)
    ensures r != ""
    ensures pathname.Some? && pathname.value != "" ==> r == pathname.value
    ensures pathname.None? || pathname.value == "" ==> r == "/"
  {
    if pathname.Some? && pathname.value != "" then pathname.value else "/"
  }

  /** The app-router version's effect: no navigation while loading, else the first redirect. */
  function EffectRedirect(loading: bool, user: Option<User>, required: Option<RequiredRole>,
                          requireSubscription: bool, pathname: Option<string>): (r: Option<Redirect>)
    ensures loading ==> r.None?
    ensures !loading && user.None? ==> r == Some(Redirect("/login", Some(FromPath(pathname))))
    ensures !loading && user.Some? && RoleRefused(user, required) ==> r == Some(Redirect("/matches", None))
    ensures !loading && user.Some? && !RoleRefused(user, required)
            && requireSubscription && !Auth.HasSubscriptionOf(user) && !Auth.IsAdminOf(user) ==>
      r == Some(Redirect("/subscribe", Some(FromPath(pathname))))
    ensures !loading ==> r == FirstRedirect(user, required, requireSubscription, FromPath(pathname))
  {
    if loading then None else FirstRedirect(user, required, requireSubscription, FromPath(pathname))
  }

  /** The app-router version's render: spinner while loading, nothing while a redirect condition holds, else the children. */
  function AppGuardRender(loading: bool, user: Option<User>, required: Option<RequiredRole>, requireSubscription: bool)
    : Render
  {
    if loading then Spinner
    else if user.None? || (required.Some? && RoleRefused(user, required))
         || (requireSubscription && !Auth.HasSubscriptionOf(user) && !Auth.IsAdminOf(user)) then Nothing
    else Children
  }

  /**
   * The render guard hides the page exactly when the effect navigates away,
   * and the two versions agree: the same target, and children shown in the
   * same cases.
   */
  lemma RenderGuardMatchesEffect(loading: bool, user: Option<User>, required: Option<RequiredRole>,
                                 requireSubscription: bool, pathname: Option<string>)
    ensures AppGuardRender(loading, user, required, requireSubscription) == Nothing
        <==> EffectRedirect(loading, user, required, requireSubscription, pathname).Some?
    ensures AppGuardRender(loading, user, required, requireSubscription) == Spinner <==> loading
    ensures AppGuardRender(loading, user, required, requireSubscription) == Children
        <==> RouterGuard(loading, user, required, requireSubscription, FromPath(pathname)) == Children
    ensures !loading && EffectRedirect(loading, user, required, requireSubscription, pathname).Some? ==>
      RouterGuard(loading, user, required, requireSubscription, FromPath(pathname))
      == Navigate(EffectRedirect(loading, user, required, requireSubscription, pathname).value)
  {
  }
}
