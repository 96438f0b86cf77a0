/**
 * The single-page app's router: a table of three named routes and the global
 * `beforeEach` guard that sends visitors without a stored token to `login` when the
 * target route requires authentication, and signed-in visitors away from `login`.
 */
module Router {
  import opened Options

  /** `route.meta`; a route without `meta.requiresAuth` does not require authentication. */
  datatype Meta = Meta(requiresAuth: bool)

  /** A route record of the table. */
  datatype RouteRecord = RouteRecord(path: string, name: string, meta: Meta)

  /** The target or origin of a navigation: its route name (if any) and its meta fields. */
  datatype Location = Location(name: Option<string>, meta: Meta)

  /** What the guard passes to `next`: `next()` or `next({ name })`. */
  datatype Decision = Proceed | Redirect(name: string)

  /** The route table: `/` (home, protected), `/login`, `/signup`. */
  const Routes: seq<RouteRecord> := [
    RouteRecord("/", "home", Meta(true)),
    RouteRecord("/login", "login", Meta(false)),
    RouteRecord("/signup", "signup", Meta(false))
  ]

  /** The location a navigation to a route of the table arrives at. */
  function LocationOf(route: RouteRecord): Location {
    Location(Some(route.name), route.meta)
  }

  /** The table's route named `name`, as a navigation target. */
  function Resolve(name: string): (loc: Option<Location>)
    ensures loc.Some? <==> exists i :: 0 <= i < |Routes| && Routes[i].name == name
    ensures loc.Some? ==> loc.value.name == Some(name)
    ensures forall i :: 0 <= i < |Routes| && Routes[i].name == name ==> loc == Some(LocationOf(Routes[i]))
  {
    if name == "home" then Some(LocationOf(Routes[0]))
    else if name == "login" then Some(LocationOf(Routes[1]))
    else if name == "signup" then Some(LocationOf(Routes[2]))
    else None
  }

  /** `localStorage.getItem('idToken')` is truthy: present and not the empty string. */
  predicate HasToken(token: Option<string>) {
    token.Some? && token.value != ""
  }

  /** `router.beforeEach((to, from, next) => ...)`: one call of `next` per navigation. */
  function BeforeEach(to: Location, from: Location, token: Option<string>): (d: Decision)
    ensures d == Redirect("login") <==> to.meta.requiresAuth && !HasToken(token)
    ensures d == Redirect("home") <==> to.name == Some("login") && HasToken(token)
    ensures d.Redirect? ==> Resolve(d.name).Some?
  {
    if to.meta.requiresAuth && !HasToken(token) then Redirect("login")
    else if to.name == Some("login") && HasToken(token) then Redirect("home")
    else Proceed
  }

  /** The guard proceeds exactly when the target is open to the visitor and is not `login` for a signed-in one. */
  lemma ProceedIff(to: Location, from: Location, token: Option<string>)
    ensures BeforeEach(to, from, token) == Proceed <==>
              (!to.meta.requiresAuth || HasToken(token)) && !(to.name == Some("login") && HasToken(token))
  {
  }

  /** The decision depends on the target and the token, never on where the navigation starts. */
  lemma IgnoresOrigin(to: Location, from1: Location, from2: Location, token: Option<string>)
    ensures BeforeEach(to, from1, token) == BeforeEach(to, from2, token)
  {
  }

  /**
   * No redirect loop: whatever the target, the route the guard redirects to exists in the
   * table, and navigating there with the same token proceeds.
   */
  lemma NoRedirectLoop(to: Location, from: Location, token: Option<string>)
    ensures BeforeEach(to, from, token).Redirect? ==>
              var target := Resolve(BeforeEach(to, from, token).name);
              target.Some? && BeforeEach(target.value, to, token) == Proceed
  {
  }

  /** The `signup` route is never redirected, with or without a token. */
  lemma SignupNeverRedirected(from: Location, token: Option<string>)
    ensures BeforeEach(LocationOf(Routes[2]), from, token) == Proceed
  {
  }

  /** Among the table's routes, only `home` can send a visitor to `login`, and only `login` to `home`. */
  lemma TableRedirects(i: nat, from: Location, token: Option<string>)
    requires i < |Routes|
    ensures BeforeEach(LocationOf(Routes[i]), from, token) == Redirect("login") <==>
              Routes[i].name == "home" && !HasToken(token)
    ensures BeforeEach(LocationOf(Routes[i]), from, token) == Redirect("home") <==>
              Routes[i].name == "login" && HasToken(token)
  {
  }
}
