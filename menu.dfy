/** The side menu built from the route table, and the list of route names kept alive. */
module Menu {
  import opened Wrappers
  import opened SeqFacts
  import opened Router

  /** A growable array that code appends to with `push`. */
  class PushList<T> {
    var items: seq<T>

    constructor()
      ensures items == []
    {
      items := [];
    }

    method Push(x: T)
      modifies this
      ensures items == old(items) + [x]
    {
      items := items + [x];
    }
  }

  /** A menu entry's label: the plain `meta.label` of a parent entry, or a router link to the
      route's name showing its `meta.label`. */
  datatype Label = Text(text: Option<string>) | Link(routeName: string, text: Option<string>)

  /** A menu option: key, label, optional icon, and child options for a parent entry. */
  datatype MenuItem = MenuItem(key: Option<string>, caption: Label, icon: Option<string>, children: Option<seq<MenuItem>>)

  /** A route gets a menu entry when it has `meta` and `meta.hide` is not set. */
  predicate InMenu(r: Route) {
    r.meta.Some? && !r.meta.value.hide
  }

  /** The menu `createMenu` appends for the given routes. */
  function MenuOf(routes: seq<Route>): (items: seq<MenuItem>)
    ensures |items| <= |routes|
    decreases routes
  {
    if routes == [] then []
    else
      var r := routes[0];
      var entry :=
        if !InMenu(r) then []
        else
          var meta := r.meta.value;
          if r.children != [] then [MenuItem(meta.key, Text(meta.labelText), meta.icon, Some(MenuOf(r.children)))]
          else [MenuItem(meta.key, Link(r.name, meta.labelText), meta.icon, None)];
      entry + MenuOf(routes[1..])
  }

  lemma {:induction false} MenuOfConcat(a: seq<Route>, b: seq<Route>)
    ensures MenuOf(a + b) == MenuOf(a) + MenuOf(b)
  {
    if a != [] {
      MenuOfConcat(a[1..], b);
      assert (a + b)[1..] == a[1..] + b;
    } else {
      assert a + b == b;
    }
  }

  /** One more route adds that route's own entry (if any) at the end. */
  lemma MenuOfStep(routes: seq<Route>, i: nat)
    requires i < |routes|
    ensures MenuOf(routes[..i + 1]) == MenuOf(routes[..i]) + MenuOf([routes[i]])
    ensures MenuOf([routes[i]]) == (if !InMenu(routes[i]) then []
      else if routes[i].children != [] then
        [MenuItem(routes[i].meta.value.key, Text(routes[i].meta.value.labelText), routes[i].meta.value.icon, Some(MenuOf(routes[i].children)))]
      else [MenuItem(routes[i].meta.value.key, Link(routes[i].name, routes[i].meta.value.labelText), routes[i].meta.value.icon, None)])
  {
    MenuOfConcat(routes[..i], [routes[i]]);
    assert routes[..i + 1] == routes[..i] + [routes[i]];
    assert [routes[i]][1..] == [];
  }

  /** `createMenu`: walks the routes in order and pushes one option per route that belongs in
      the menu, building a parent's children into a fresh list first. */
  method CreateMenu(routes: seq<Route>, menu: PushList<MenuItem>)
    modifies menu
    ensures menu.items == old(menu.items) + MenuOf(routes)
    decreases routes
  {
    var i := 0;
    while i < |routes|
      invariant 0 <= i <= |routes|
      invariant menu.items == old(menu.items) + MenuOf(routes[..i])
    {
      var route := routes[i];
      MenuOfStep(routes, i);
      if route.meta.Some? && !route.meta.value.hide {
        var meta := route.meta.value;
        var caption: Label;
        var children: Option<seq<MenuItem>> := None;
        if route.children != [] {
          var sub := new PushList<MenuItem>();
          CreateMenu(route.children, sub);
          assert sub.items == MenuOf(route.children);
          children := Some(sub.items);
          caption := Text(meta.labelText);
        } else {
          caption := Link(route.name, meta.labelText);
        }
        var icon: Option<string> := None;
        if meta.icon.Some? {
          icon := meta.icon;
        }
        assert icon == meta.icon;
        assert menu.items == old(menu.items) + MenuOf(routes[..i]);
        menu.Push(MenuItem(meta.key, caption, icon, children));
      }
      i := i + 1;
    }
    assert routes[..i] == routes;
  }

  /** The routes that get a menu entry, in their original order. */
  function Visible(routes: seq<Route>): (vis: seq<Route>)
    ensures |vis| <= |routes|
    ensures forall k :: 0 <= k < |vis| ==> vis[k] in routes && InMenu(vis[k])
  {
    if routes == [] then []
    else (if InMenu(routes[0]) then [routes[0]] else []) + Visible(routes[1..])
  }

  /** The option built for a route that belongs in the menu, given its children's menu. */
  predicate ItemFor(item: MenuItem, r: Route, childMenu: seq<MenuItem>)
    requires InMenu(r)
  {
    && item.key == r.meta.value.key
    && item.icon == r.meta.value.icon
    && (r.children != [] ==> item.caption == Text(r.meta.value.labelText) && item.children == Some(childMenu))
    && (r.children == [] ==> item.caption == Link(r.name, r.meta.value.labelText) && item.children.None?)
  }

  /** The k-th option comes from the k-th route that belongs in the menu: hidden routes and
      routes without `meta` produce nothing, order is kept, the key and icon are the route's, a
      parent gets its plain label and its own children's menu, and a leaf gets a link to itself. */
  lemma {:induction false} MenuMatchesVisible(routes: seq<Route>)
    ensures |MenuOf(routes)| == |Visible(routes)|
    ensures forall k :: 0 <= k < |MenuOf(routes)| ==>
      ItemFor(MenuOf(routes)[k], Visible(routes)[k], MenuOf(Visible(routes)[k].children))
  {
    if routes != [] {
      MenuMatchesVisible(routes[1..]);
    }
  }

  /** `resolveKeepAliveRouteNames` as a value: for each route in order, the names found in its
      children, then its own name when `meta.keepAlive` is set. */
  function KeepAliveOf(routes: seq<Route>): seq<string>
    decreases routes
  {
    if routes == [] then []
    else
      var r := routes[0];
      (if r.children != [] then KeepAliveOf(r.children) else [])
      + (if KeepsAlive(r) then [r.name] else [])
      + KeepAliveOf(routes[1..])
  }

  predicate KeepsAlive(r: Route) {
    r.meta.Some? && r.meta.value.keepAlive
  }

  lemma {:induction false} KeepAliveOfConcat(a: seq<Route>, b: seq<Route>)
    ensures KeepAliveOf(a + b) == KeepAliveOf(a) + KeepAliveOf(b)
  {
    if a != [] {
      KeepAliveOfConcat(a[1..], b);
      assert (a + b)[1..] == a[1..] + b;
    } else {
      assert a + b == b;
    }
  }

  /** One more route adds its descendants' names, then its own. */
  lemma KeepAliveOfStep(routes: seq<Route>, i: nat)
    requires i < |routes|
    ensures KeepAliveOf(routes[..i + 1]) == KeepAliveOf(routes[..i])
      + (if routes[i].children != [] then KeepAliveOf(routes[i].children) else [])
      + (if KeepsAlive(routes[i]) then [routes[i].name] else [])
  {
    KeepAliveOfConcat(routes[..i], [routes[i]]);
    assert routes[..i + 1] == routes[..i] + [routes[i]];
    assert [routes[i]][1..] == [];
  }

  /** `resolveKeepAliveRouteNames`: pushes the names into the shared list, descendants first. */
  method ResolveKeepAliveRouteNames(routes: seq<Route>, keepAliveRouteNames: PushList<string>)
    modifies keepAliveRouteNames
    ensures keepAliveRouteNames.items == old(keepAliveRouteNames.items) + KeepAliveOf(routes)
    decreases routes
  {
    var i := 0;
    while i < |routes|
      invariant 0 <= i <= |routes|
      invariant keepAliveRouteNames.items == old(keepAliveRouteNames.items) + KeepAliveOf(routes[..i])
    {
      var route := routes[i];
      KeepAliveOfStep(routes, i);
      ghost var below := if route.children != [] then KeepAliveOf(route.children) else [];
      if route.children != [] {
        ResolveKeepAliveRouteNames(route.children, keepAliveRouteNames);
      }
      if route.meta.Some? && route.meta.value.keepAlive {
        keepAliveRouteNames.Push(route.name);
      }
      ConcatAssoc(old(keepAliveRouteNames.items), KeepAliveOf(routes[..i]), below);
      ConcatAssoc(old(keepAliveRouteNames.items), KeepAliveOf(routes[..i]) + below, if KeepsAlive(route) then [route.name] else []);
      i := i + 1;
    }
    assert routes[..i] == routes;
  }

  /** Every route record of the tree, in post-order: a record's descendants come before it. */
  function PostOrder(routes: seq<Route>): seq<Route>
    decreases routes
  {
    if routes == [] then []
    else PostOrder(routes[0].children) + [routes[0]] + PostOrder(routes[1..])
  }

  /** The names of the records that set `meta.keepAlive`, in the given order. */
  function KeptAliveNames(rs: seq<Route>): (names: seq<string>)
    ensures forall name :: name in names <==> exists k :: 0 <= k < |rs| && KeepsAlive(rs[k]) && rs[k].name == name
  {
    if rs == [] then []
    else
      var rest := KeptAliveNames(rs[1..]);
      assert forall k :: 1 <= k < |rs| ==> rs[k] == rs[1..][k - 1];
      (if KeepsAlive(rs[0]) then [rs[0].name] else []) + rest
  }

  lemma {:induction false} KeptAliveNamesConcat(a: seq<Route>, b: seq<Route>)
    ensures KeptAliveNames(a + b) == KeptAliveNames(a) + KeptAliveNames(b)
  {
    if a != [] {
      KeptAliveNamesConcat(a[1..], b);
      assert (a + b)[1..] == a[1..] + b;
    } else {
      assert a + b == b;
    }
  }

  /** The kept-alive list is the post-order walk of the whole tree filtered by `meta.keepAlive`. */
  lemma {:induction false} KeepAliveIsPostOrder(routes: seq<Route>)
    ensures KeepAliveOf(routes) == KeptAliveNames(PostOrder(routes))
    decreases routes
  {
    if routes != [] {
      var r := routes[0];
      KeepAliveIsPostOrder(r.children);
      KeepAliveIsPostOrder(routes[1..]);
      KeptAliveNamesConcat(PostOrder(r.children) + [r], PostOrder(routes[1..]));
      KeptAliveNamesConcat(PostOrder(r.children), [r]);
      assert [r][1..] == [];
      assert KeptAliveNames([r]) == (if KeepsAlive(r) then [r.name] else []) + [];
      if r.children == [] {
        assert PostOrder(r.children) == [];
      }
    }
  }

  /** A name is in the kept-alive list exactly when some record of the tree, at any depth, has
      that name and sets `meta.keepAlive`. */
  lemma KeepAliveMembership(routes: seq<Route>, name: string)
    ensures name in KeepAliveOf(routes) <==>
      exists k :: 0 <= k < |PostOrder(routes)| && KeepsAlive(PostOrder(routes)[k]) && PostOrder(routes)[k].name == name
  {
    KeepAliveIsPostOrder(routes);
  }

  /** Post-order reaches every depth: a route and every record below it are in the walk. */
  lemma {:induction false} PostOrderCovers(routes: seq<Route>, k: nat)
    requires k < |routes|
    ensures routes[k] in PostOrder(routes)
    ensures forall r :: r in PostOrder(routes[k].children) ==> r in PostOrder(routes)
    decreases routes
  {
    if k > 0 {
      PostOrderCovers(routes[1..], k - 1);
    }
  }

  /** The menu built at start-up from the children of the root route. */
  function ShippedMenu(): seq<MenuItem> {
    [MenuItem(Some("User"), Link("User", Some("用户管理")), Some("DocumentTextOutline"), None),
     MenuItem(Some("Draw"), Link("Draw", Some("抽奖管理")), Some("DocumentTextOutline"), None),
     MenuItem(Some("AdminManage"), Link("AdminManage", Some("管理员列表")), Some("DocumentTextOutline"), None)]
  }

  /** For the shipped table the menu is `User`, `Draw`, `AdminManage`, all three links. */
  lemma ShippedMenuItems()
    ensures MenuOf(Routes[0].children) == ShippedMenu()
  {
    var pages := Routes[0].children;
    assert pages[2..][1..] == [];
    assert MenuOf(pages[2..]) == [ShippedMenu()[2]];
    assert MenuOf(pages[1..]) == ShippedMenu()[1..];
  }

  /** No route of the shipped table is kept alive. */
  lemma ShippedKeepAlive()
    ensures KeepAliveOf(Routes) == []
  {
    var pages := Routes[0].children;
    assert KeepAliveOf(pages[2..]) == [];
    assert KeepAliveOf(pages[1..]) == [];
    assert KeepAliveOf(pages) == [];
    assert KeepAliveOf(Routes[2..]) == [];
    assert KeepAliveOf(Routes[1..]) == [];
  }

  /** The module's start-up: `createMenu(routes[0].children, menuOptions)` and
      `resolveKeepAliveRouteNames(routes)`, each into a fresh empty list. */
  method Initialize() returns (menuOptions: PushList<MenuItem>, keepAliveRouteNames: PushList<string>)
    ensures fresh(menuOptions) && fresh(keepAliveRouteNames)
    ensures menuOptions.items == ShippedMenu()
    ensures keepAliveRouteNames.items == []
  {
    menuOptions := new PushList<MenuItem>();
    CreateMenu(Routes[0].children, menuOptions);
    keepAliveRouteNames := new PushList<string>();
    ResolveKeepAliveRouteNames(Routes, keepAliveRouteNames);
    ShippedMenuItems();
    ShippedKeepAlive();
  }
}
