/** The route table and the navigation guard in front of it: pages that
    need a signed-in user send a signed-out visitor to the login page, and
    the login page sends a signed-in user to the dashboard. */
module Router {
  import opened Prelude

  /** A route of the table: its path, its name and whether its meta marks it
      as needing a signed-in user (a route without meta does not). */
  datatype Route = Route(path: string, name: string, requiresAuth: bool)

  const Routes: seq<Route> := [
    Route("/login", "login", false),
    Route("/", "dashboard", true),
    Route("/location/:id", "location", true),
    Route("/items", "allItems", true),
    Route("/todos", "todos", true)
  ]

  /** Where a navigation goes: the matched route's name (absent when no route
      matches) and its `requiresAuth` meta. */
  datatype Target = Target(name: Option<string>, requiresAuth: bool)

  function TargetOf(r: Route): Target {
    Target(Some(r.name), r.requiresAuth)
  }

  datatype Decision = Proceed | Redirect(name: string)

  /** Whether a page may be shown: a protected page only to a signed-in user,
      and the login page only to a signed-out one. */
  predicate Allowed(to: Target, signedIn: bool) {
    (signedIn || !to.requiresAuth) && !(signedIn && to.name == Some("login"))
  }

  /** The `beforeEach` guard. `user` is the signed-in user, if any;
      `isAuthReady` is read by the guard and plays no part in the decision.
      It lets the navigation through exactly when the page is allowed, and
      otherwise sends a signed-out visitor to the login page and a signed-in
      user to the dashboard. */
  function Guard(to: Target, user: Option<string>, isAuthReady: bool): (d: Decision)
    ensures d == Proceed <==> Allowed(to, user.Some?)
    ensures d.Redirect? ==> d.name == if user.Some? then "dashboard" else "login"
  {
    if to.requiresAuth && user.None? then Redirect("login")
    else if to.name == Some("login") && user.Some? then Redirect("dashboard")
    else Proceed
  }

  /** The guard's three cases, one per branch. */
  lemma GuardCases(to: Target, user: Option<string>, isAuthReady: bool)
    ensures to.requiresAuth && user.None? ==> Guard(to, user, isAuthReady) == Redirect("login")
    ensures to.name == Some("login") && user.Some? ==> Guard(to, user, isAuthReady) == Redirect("dashboard")
    ensures !(to.requiresAuth && user.None?) && !(to.name == Some("login") && user.Some?) ==>
      Guard(to, user, isAuthReady) == Proceed
  {
  }

  /** The decision does not depend on whether the session check has finished. */
  lemma AuthReadyIgnored(to: Target, user: Option<string>)
    ensures Guard(to, user, false) == Guard(to, user, true)
  {
  }

  /** Every route of the table except `login` requires a signed-in user. */
  lemma OnlyLoginIsPublic()
    ensures forall i :: 0 <= i < |Routes| ==> (Routes[i].requiresAuth <==> Routes[i].name != "login")
  {
  }

  /** The index of the route named `name` in the table, or -1. */
  function RouteNamed(name: string): (i: int)
    ensures -1 <= i < |Routes|
    ensures 0 <= i ==> Routes[i].name == name
    ensures i == -1 <==> forall j :: 0 <= j < |Routes| ==> Routes[j].name != name
  {
    FindIndex(Routes, (r: Route) => r.name == name)
  }

  /** Redirects do not loop: a redirect names a route of the table, and the
      guard lets the navigation to that route through for the same user. */
  lemma NoRedirectLoop(to: Target, user: Option<string>, isAuthReady: bool)
    requires Guard(to, user, isAuthReady).Redirect?
    ensures var i := RouteNamed(Guard(to, user, isAuthReady).name);
            0 <= i && Guard(TargetOf(Routes[i]), user, isAuthReady) == Proceed
  {
    if user.Some? {
      assert Routes[1].name == "dashboard";
      assert RouteNamed("dashboard") == 1;
    } else {
      assert Routes[0].name == "login";
      assert RouteNamed("login") == 0;
    }
  }
}
