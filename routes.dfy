/** The application's route table and its global navigation guard. */
module Router {
  import opened Wrappers

  /** The `meta` object of a route record. Absent flags are `false`; the icon is named by its
      component. */
  datatype Meta = Meta(
    key: Option<string>,
    labelText: Option<string>,
    icon: Option<string>,
    noAuth: bool,
    hide: bool,
    keepAlive: bool)

  /** A route record: path, name, optional meta, optional record-level redirect (to a route
      name), and nested child records. Components are left out. */
  datatype Route = Route(
    path: string,
    name: string,
    meta: Option<Meta>,
    redirect: Option<string>,
    children: seq<Route>)

  function MenuMeta(key: string, labelText: string): Meta {
    Meta(Some(key), Some(labelText), Some("DocumentTextOutline"), false, false, false)
  }

  const PublicMeta: Meta := Meta(None, None, None, true, false, false)

  const LoginName: string := "Login"
  const HomePath: string := "/"

  /** The shipped route table. */
  const Routes: seq<Route> := [
    Route("/", "Home", None, Some("AdminManage"), [
      Route("user", "User", Some(MenuMeta("User", "用户管理")), None, []),
      Route("draw", "Draw", Some(MenuMeta("Draw", "抽奖管理")), None, []),
      Route("admin-manage", "AdminManage", Some(MenuMeta("AdminManage", "管理员列表")), None, [])
    ]),
    Route("/login", "Login", Some(PublicMeta), None, []),
    Route("/:pathMatch(.*)*", "NotFound", Some(PublicMeta), None, [])
  ]

  /** What the guard sees of a navigation: the matched route's name, and whether the merged
      `meta` of the matched records (the route and its ancestors) sets `noAuth`. */
  datatype Target = Target(name: string, noAuth: bool)

  function OwnNoAuth(r: Route): bool {
    r.meta.Some? && r.meta.value.noAuth
  }

  /** Some record of the list, at any depth, is named `name`. */
  predicate Declares(routes: seq<Route>, name: string)
    decreases routes
  {
    routes != [] && (routes[0].name == name || Declares(routes[0].children, name) || Declares(routes[1..], name))
  }

  /** Resolves a route name in the tree, depth first in declaration order, carrying the
      ancestors' `noAuth` down to the matched record. */
  function Lookup(routes: seq<Route>, name: string, inheritedNoAuth: bool): (t: Option<Target>)
    ensures t.Some? <==> Declares(routes, name)
    ensures t.Some? ==> t.value.name == name
    ensures t.Some? && inheritedNoAuth ==> t.value.noAuth
    decreases routes
  {
    if routes == [] then None
    else
      var r := routes[0];
      var noAuth := inheritedNoAuth || OwnNoAuth(r);
      if r.name == name then Some(Target(name, noAuth))
      else
        match Lookup(r.children, name, noAuth)
        case Some(t) => Some(t)
        case None => Lookup(routes[1..], name, inheritedNoAuth)
  }

  /** The navigation target for a route name in the shipped table. */
  function Resolve(name: string): (t: Option<Target>)
    ensures t.Some? <==> Declares(Routes, name)
    ensures t.Some? ==> t.value.name == name
  {
    Lookup(Routes, name, false)
  }

  /** The guard's verdict: go on, or redirect to a named route or to a path. */
  datatype NavDecision = Proceed | RedirectToName(name: string) | RedirectToPath(path: string)

  /** A string token is truthy exactly when it is not empty. */
  predicate HasToken(token: string) {
    token != ""
  }

  /** `router.beforeEach`: the decision passed to `next`, for the given target and session token. */
  function BeforeEach(to: Target, token: string): (d: NavDecision)
    ensures d == RedirectToName(LoginName) <==> !to.noAuth && !HasToken(token)
    ensures d == RedirectToPath(HomePath) <==> (to.noAuth || HasToken(token)) && to.name == LoginName && HasToken(token)
    ensures d == Proceed <==> (to.noAuth || HasToken(token)) && !(to.name == LoginName && HasToken(token))
    ensures d == RedirectToName(LoginName) || d == RedirectToPath(HomePath) || d == Proceed
  {
    var needAuth := !to.noAuth;
    var hasToken := HasToken(token);
    if needAuth && !hasToken then RedirectToName(LoginName)
    else if to.name == LoginName && hasToken then RedirectToPath(HomePath)
    else Proceed
  }

  /** The table's public routes are exactly `Login` and `NotFound`; the others need a session. */
  lemma ShippedTargets()
    ensures Resolve("Login") == Some(Target("Login", true))
    ensures Resolve("NotFound") == Some(Target("NotFound", true))
    ensures Resolve("Home") == Some(Target("Home", false))
    ensures Resolve("User") == Some(Target("User", false))
    ensures Resolve("Draw") == Some(Target("Draw", false))
    ensures Resolve("AdminManage") == Some(Target("AdminManage", false))
  {
    var home := Routes[0];
    var pages := home.children;
    assert pages[2..][1..] == [] && pages[1..][1..] == pages[2..] && pages[1..] == pages[1..];
    assert Routes[1..][1..] == Routes[2..];
    forall name | name !in {"User", "Draw", "AdminManage"}
      ensures Lookup(pages, name, false) == None
    {
      assert Lookup(pages[2..], name, false) == None;
      assert Lookup(pages[1..], name, false) == None;
    }
    assert Lookup(pages, "Draw", false) == Some(Target("Draw", false)) by {
      assert Lookup(pages[1..], "Draw", false) == Some(Target("Draw", false));
    }
    assert Lookup(pages, "AdminManage", false) == Some(Target("AdminManage", false)) by {
      assert Lookup(pages[2..], "AdminManage", false) == Some(Target("AdminManage", false));
      assert Lookup(pages[1..], "AdminManage", false) == Some(Target("AdminManage", false));
    }
    assert !OwnNoAuth(home) && home.name == "Home";
    assert Lookup(pages, "User", false) == Some(Target("User", false));
    assert Lookup(pages, "Login", false) == None;
    assert Lookup(pages, "NotFound", false) == None;
    assert Lookup(pages, "Home", false) == None;
    assert Lookup(Routes[1..], "Login", false) == Some(Target("Login", true));
    assert Lookup(Routes[2..], "NotFound", false) == Some(Target("NotFound", true));
    assert Lookup(Routes[1..], "NotFound", false) == Some(Target("NotFound", true));
  }

  /** Without a session, a public route is never redirected; in particular `Login` and
      `NotFound` are reached directly, so the redirect to `Login` cannot loop. */
  lemma PublicRoutesProceed(name: string, token: string)
    requires name == "Login" || name == "NotFound"
    requires !HasToken(token)
    ensures Resolve(name).Some? && BeforeEach(Resolve(name).value, token) == Proceed
  {
    ShippedTargets();
  }

  /** With a session, the only target that is redirected is `Login`. */
  lemma WithTokenOnlyLoginRedirects(to: Target, token: string)
    requires HasToken(token)
    ensures BeforeEach(to, token) != Proceed <==> to.name == LoginName
    ensures to.name == LoginName ==> BeforeEach(to, token) == RedirectToPath(HomePath)
  {
  }

  /** Every redirect the guard issues lands on a route the guard then lets through with the same
      token: `Login` when there is no session, and `/` (the `Home` record, whose own redirect
      leads to `AdminManage`) when there is one. */
  lemma NoRedirectLoop(to: Target, token: string)
    ensures BeforeEach(to, token).RedirectToName? ==>
      var t := Resolve(BeforeEach(to, token).name);
      t.Some? && BeforeEach(t.value, token) == Proceed
    ensures BeforeEach(to, token).RedirectToPath? ==>
      && Routes[0].path == BeforeEach(to, token).path
      && Routes[0].redirect == Some("AdminManage")
      && Resolve(Routes[0].name).Some? && BeforeEach(Resolve(Routes[0].name).value, token) == Proceed
      && Resolve("AdminManage").Some? && BeforeEach(Resolve("AdminManage").value, token) == Proceed
  {
    ShippedTargets();
  }
}
