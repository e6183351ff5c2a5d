/** `ProtectedRoute.tsx`: the authentication check that either redirects to the login
    page or marks the route as checked, and the choice between spinner and children. */
module ProtectedRoute {
  import opened Wrappers

  /** A signed-in user; only its presence matters here. */
  datatype User = User(uid: string)

  datatype Navigation = Navigation(path: string, replace: bool)

  datatype CheckOutcome = Redirect(to: Navigation) | MarkChecked

  const LoginRedirect := Navigation("/login", true)

  /** `checkAuth`: the current user is the context's or else the global auth's; without one,
      and only once loading is over, it redirects to the login page, replacing the entry. */
  function CheckAuthDecision(loading: bool, user: Option<User>, globalUser: Option<User>): (o: CheckOutcome)
    ensures o.Redirect? <==> !loading && user.None? && globalUser.None?
    ensures o.Redirect? ==> o.to == LoginRedirect
  {
    var hasUser := user.Some? || globalUser.Some?;
    if !loading && !hasUser then Redirect(LoginRedirect) else MarkChecked
  }

  /** While loading, the check never redirects, whoever is signed in. */
  lemma NoRedirectWhileLoading(user: Option<User>, globalUser: Option<User>)
    ensures CheckAuthDecision(true, user, globalUser) == MarkChecked
  {
  }

  /** The route's `isAuthChecked` state. */
  class RouteGuard {
    var isAuthChecked: bool

    constructor()
      ensures !isAuthChecked
    {
      isAuthChecked := false;
    }

    /** One run of `checkAuth` (on mount, when `user` or `loading` change, and on every
        `auth-state-changed` event): the redirect leaves the flag alone, otherwise it is set. */
    method CheckAuth(loading: bool, user: Option<User>, globalUser: Option<User>) returns (nav: Option<Navigation>)
      modifies this
      ensures CheckAuthDecision(loading, user, globalUser).Redirect? ==>
        nav == Some(LoginRedirect) && isAuthChecked == old(isAuthChecked)
      ensures CheckAuthDecision(loading, user, globalUser) == MarkChecked ==> nav == None && isAuthChecked
      ensures old(isAuthChecked) ==> isAuthChecked
      ensures ShowsChildren(loading) <==> !loading && (old(isAuthChecked) || user.Some? || globalUser.Some?)
    {
      var currentUser := if user.Some? then user else globalUser;
      if !loading && currentUser.None? {
        nav := Some(LoginRedirect);
      } else {
        isAuthChecked := true;
        nav := None;
      }
    }

    /** The render: the children once loading is over and the check has passed, else the spinner. */
    predicate ShowsChildren(loading: bool)
      reads this
    {
      !loading && isAuthChecked
    }
  }

  /** A freshly mounted route: the first render, before the effect, shows the spinner;
      the effect's first `checkAuth` then redirects or marks the route checked, and the
      next render shows the children exactly when loading is over and a user exists. */
  method MountRoute(loading: bool, user: Option<User>, globalUser: Option<User>)
    returns (firstRender: bool, nav: Option<Navigation>, nextRender: bool)
    ensures !firstRender
    ensures nav.Some? <==> !loading && user.None? && globalUser.None?
    ensures nav.Some? ==> nav.value == LoginRedirect
    ensures nextRender <==> !loading && (user.Some? || globalUser.Some?)
  {
    var guard := new RouteGuard();
    firstRender := guard.ShowsChildren(loading);
    nav := guard.CheckAuth(loading, user, globalUser);
    nextRender := guard.ShowsChildren(loading);
  }
}
