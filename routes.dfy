/** The navigation gate: `PrivateRoute`'s three-way decision and the route
    table of `App`, which says which paths sit behind which gate. */
module Routes {
  import opened Js
  import Auth

  // ---------------------------------------------------------------------
  // PrivateRoute

  datatype Decision = Outlet | Redirect(to: string)

  /** `allowedRoles.includes(user?.role)`: a missing user or a payload
      without a role is never included. */
  predicate RoleAllowed(allowedRoles: seq<string>, user: Option<Auth.Claims>)
  {
    user.Some? && user.value.role.Some? && user.value.role.value in allowedRoles
  }

  /** The guard's decision for a session and the roles a route group admits
      (the empty list when the route gives none). */
  function PrivateRoute(authenticated: bool, user: Option<Auth.Claims>, allowedRoles: seq<string>): (d: Decision)
    ensures !authenticated ==> d == Redirect("/login")
    ensures d == Redirect("/unauthorized") ==> authenticated
    ensures d.Redirect? ==> d.to == "/login" || d.to == "/unauthorized"
    ensures authenticated && allowedRoles == [] ==> d == Outlet
    ensures authenticated && allowedRoles != [] && !RoleAllowed(allowedRoles, user) ==> d == Redirect("/unauthorized")
    ensures authenticated && allowedRoles != [] && user.None? ==> d == Redirect("/unauthorized")
    ensures authenticated && RoleAllowed(allowedRoles, user) ==> d == Outlet
  {
    if !authenticated then Redirect("/login")
    else if |allowedRoles| > 0 && !RoleAllowed(allowedRoles, user) then Redirect("/unauthorized")
    else Outlet
  }

  /** The guard of the seller group admits exactly the users `isSeller`
      recognises. */
  lemma SellerGroupMatchesIsSeller(user: Option<Auth.Claims>)
    ensures RoleAllowed(["seller"], user) <==> Auth.HasSellerRole(user)
  {
  }

  // ---------------------------------------------------------------------
  // Paths as segments

  predicate Slashless(s: string)
  {
    forall i :: 0 <= i < |s| ==> s[i] != '/'
  }

  /** The length of the leading segment of p: everything before the first '/'. */
  function SegmentLength(p: string): (n: nat)
    ensures n <= |p| && Slashless(p[..n])
    ensures n < |p| ==> p[n] == '/'
    ensures p != [] && p[0] != '/' ==> n > 0
  {
    if p == [] || p[0] == '/' then 0
    else
      var n := 1 + SegmentLength(p[1..]);
      assert p[..n] == [p[0]] + p[1..][..n - 1];
      n
  }

  /** The non-empty '/'-separated segments of a path, in order. Only paths
      without repeated slashes are split (see `Resolve`), so every '/' but a
      leading one separates two segments. */
  function Segments(p: string): (segs: seq<string>)
    decreases |p|
  {
    if p == [] then []
    else if p[0] == '/' then Segments(p[1..])
    else
      var n := SegmentLength(p);
      [p[..n]] + Segments(p[n..])
  }

  predicate ProperSegments(segs: seq<string>)
  {
    forall i :: 0 <= i < |segs| ==> segs[i] != "" && Slashless(segs[i])
  }

  /** The path "/s1/s2/…/sn"; the empty list gives "". */
  function PathOf(segs: seq<string>): string
  {
    if segs == [] then "" else "/" + segs[0] + PathOf(segs[1..])
  }

  lemma {:induction false} SegmentLengthOfJoin(s: string, rest: string)
    requires Slashless(s)
    requires rest == [] || rest[0] == '/'
    ensures SegmentLength(s + rest) == |s|
    decreases |s|
  {
    if s != [] {
      assert (s + rest)[1..] == s[1..] + rest;
      SegmentLengthOfJoin(s[1..], rest);
    } else {
      assert s + rest == rest;
    }
  }

  /** Splitting a path built from proper segments gives the segments back. */
  lemma {:induction false} SegmentsOfPath(segs: seq<string>)
    requires ProperSegments(segs)
    ensures Segments(PathOf(segs)) == segs
  {
    if segs != [] {
      var s, rest := segs[0], PathOf(segs[1..]);
      assert ProperSegments(segs[1..]) by {
        forall i | 0 <= i < |segs[1..]| ensures segs[1..][i] != "" && Slashless(segs[1..][i]) {
          assert segs[1..][i] == segs[i + 1];
        }
      }
      SegmentsOfPath(segs[1..]);
      assert rest == [] || rest[0] == '/';
      var p := "/" + s + rest;
      assert p[1..] == s + rest;
      SegmentLengthOfJoin(s, rest);
      assert (s + rest)[..|s|] == s && (s + rest)[|s|..] == rest;
    }
  }

  // ---------------------------------------------------------------------
  // The route table

  datatype Seg = Lit(name: string) | Param

  /** ASCII case folding. */
  function LowerChar(c: char): char
  {
    if 'A' <= c <= 'Z' then (c as int + 32) as char else c
  }

  function Lower(s: string): (r: string)
    ensures |r| == |s|
    ensures forall i :: 0 <= i < |s| ==> r[i] == LowerChar(s[i])
  {
    if s == [] then [] else [LowerChar(s[0])] + Lower(s[1..])
  }

  predicate NoUpper(s: string)
  {
    forall i :: 0 <= i < |s| ==> !('A' <= s[i] <= 'Z')
  }

  lemma LowerIdentity(s: string)
    requires NoUpper(s)
    ensures Lower(s) == s
  {
    assert forall i :: 0 <= i < |s| ==> Lower(s)[i] == s[i];
  }

  /** The router compares paths with its patterns ignoring case. Every literal
      of the route table is lower case, so a segment matches a literal
      exactly when its lower-case form is that literal. */
  predicate Matches(pattern: seq<Seg>, segs: seq<string>)
  {
    |pattern| == |segs| &&
    forall i :: 0 <= i < |segs| ==> pattern[i].Lit? ==> Lower(segs[i]) == pattern[i].name
  }

  datatype Page =
    | Home | LoginPage | RegisterPage | ProductList
    | Profile | CartPage | CheckoutPage | OrdersPage
    | ProductCreate | ProductEdit | SellerOrders
    | Unauthorized

  /** A route: its pattern, its page, and the roles of the `PrivateRoute`
      it is nested in (None when it is not nested in one). */
  datatype Route = Route(pattern: seq<Seg>, page: Page, guard: Option<seq<string>>)

  const AppRoutes: seq<Route> := [
    Route([], Home, None),
    Route([Lit("login")], LoginPage, None),
    Route([Lit("register")], RegisterPage, None),
    Route([Lit("products")], ProductList, None),
    Route([Lit("profile")], Profile, Some([])),
    Route([Lit("cart")], CartPage, Some([])),
    Route([Lit("checkout")], CheckoutPage, Some([])),
    Route([Lit("orders")], OrdersPage, Some([])),
    Route([Lit("products"), Lit("create")], ProductCreate, Some(["seller"])),
    Route([Lit("products"), Lit("edit"), Param], ProductEdit, Some(["seller"])),
    Route([Lit("seller"), Lit("orders")], SellerOrders, Some(["seller"])),
    Route([Lit("unauthorized")], Unauthorized, None)
  ]

  /** The index of the one route a list of segments can match, read off
      its length and leading literals. */
  function RouteIndex(segs: seq<string>): (k: Option<nat>)
    ensures k.Some? ==> k.value < |AppRoutes|
  {
    if |segs| == 0 then Some(0)
    else
      var s0 := Lower(segs[0]);
      if |segs| == 1 then
        if s0 == "login" then Some(1)
        else if s0 == "register" then Some(2)
        else if s0 == "products" then Some(3)
        else if s0 == "profile" then Some(4)
        else if s0 == "cart" then Some(5)
        else if s0 == "checkout" then Some(6)
        else if s0 == "orders" then Some(7)
        else if s0 == "unauthorized" then Some(11)
        else None
      else if |segs| == 2 then
        var s1 := Lower(segs[1]);
        if s0 == "products" && s1 == "create" then Some(8)
        else if s0 == "seller" && s1 == "orders" then Some(10)
        else None
      else if |segs| == 3 && s0 == "products" && Lower(segs[1]) == "edit" then Some(9)
      else None
  }

  /** A route matches exactly the segment lists `RouteIndex` attributes to it. */
  lemma MatchIndexIff(k: nat, segs: seq<string>)
    requires k < |AppRoutes|
    ensures Matches(AppRoutes[k].pattern, segs) <==> RouteIndex(segs) == Some(k)
  {
    if Matches(AppRoutes[k].pattern, segs) {
      MatchGivesIndex(k, segs);
    }
    if RouteIndex(segs) == Some(k) {
      IndexGivesMatch(k, segs);
    }
  }

  lemma MatchGivesIndex(k: nat, segs: seq<string>)
    requires k < |AppRoutes| && Matches(AppRoutes[k].pattern, segs)
    ensures RouteIndex(segs) == Some(k)
  {
    var p := AppRoutes[k].pattern;
    if 1 <= k <= 7 || k == 11 {
      assert Lower(segs[0]) == p[0].name;
    } else if 8 <= k <= 10 {
      assert Lower(segs[0]) == p[0].name && Lower(segs[1]) == p[1].name;
    }
  }

  lemma IndexGivesMatch(k: nat, segs: seq<string>)
    requires k < |AppRoutes| && RouteIndex(segs) == Some(k)
    ensures Matches(AppRoutes[k].pattern, segs)
  {
    assert |AppRoutes[k].pattern| == |segs|;
  }

  /** No two routes of the table match the same path, so the router's
      ranking never has to choose between them. */
  lemma RoutesAreDisjoint(segs: seq<string>, i: nat, j: nat)
    requires i < |AppRoutes| && j < |AppRoutes|
    requires Matches(AppRoutes[i].pattern, segs) && Matches(AppRoutes[j].pattern, segs)
    ensures i == j
  {
    MatchIndexIff(i, segs);
    MatchIndexIff(j, segs);
  }

  function FirstMatch(routes: seq<Route>, segs: seq<string>): (r: Option<Route>)
    ensures r.Some? ==> r.value in routes && Matches(r.value.pattern, segs)
    ensures r.None? ==> forall k :: 0 <= k < |routes| ==> !Matches(routes[k].pattern, segs)
  {
    if routes == [] then None
    else if Matches(routes[0].pattern, segs) then Some(routes[0])
    else
      var r := FirstMatch(routes[1..], segs);
      assert forall k :: 1 <= k < |routes| ==> routes[k] == routes[1..][k - 1];
      r
  }

  datatype Outcome = Render(page: Page) | Navigate(to: string) | NoMatch

  /** The outcome of a route for a session, by its guard. */
  function Guarded(r: Route, authenticated: bool, user: Option<Auth.Claims>): Outcome
  {
    match r.guard
    case None => Render(r.page)
    case Some(roles) =>
      match PrivateRoute(authenticated, user, roles)
      case Outlet => Render(r.page)
      case Redirect(to) => Navigate(to)
  }

  /** The path without its trailing slashes, which every pattern of the
      router absorbs. */
  function TrimTrailing(p: string): (q: string)
    ensures |q| <= |p| && q == p[..|q|]
    ensures q == [] || q[|q| - 1] != '/'
    ensures forall i :: |q| <= i < |p| ==> p[i] == '/'
  {
    if p != [] && p[|p| - 1] == '/' then
      var q := TrimTrailing(p[..|p| - 1]);
      assert p[..|p| - 1][..|q|] == p[..|q|];
      q
    else p
  }

  predicate NoDoubleSlash(q: string)
  {
    forall i :: 0 <= i < |q| - 1 ==> !(q[i] == '/' && q[i + 1] == '/')
  }

  /** What navigating to `path` shows for the given session. Apart from its
      trailing slashes, a path the router can match starts with '/' and has
      no two slashes in a row; any other path matches nothing. */
  function Resolve(path: string, authenticated: bool, user: Option<Auth.Claims>): Outcome
  {
    var q := TrimTrailing(path);
    if q != [] && (q[0] != '/' || !NoDoubleSlash(q)) then NoMatch
    else
      match FirstMatch(AppRoutes, Segments(q))
      case None => NoMatch
      case Some(r) => Guarded(r, authenticated, user)
  }

  /** A path built from proper segments is one the router can match as it is. */
  lemma {:induction false} PathOfShaped(segs: seq<string>)
    requires ProperSegments(segs)
    ensures PathOf(segs) == [] || (PathOf(segs)[0] == '/' && PathOf(segs)[|PathOf(segs)| - 1] != '/')
    ensures NoDoubleSlash(PathOf(segs))
    ensures TrimTrailing(PathOf(segs)) == PathOf(segs)
  {
    if segs != [] {
      var s, rest := segs[0], PathOf(segs[1..]);
      assert ProperSegments(segs[1..]) by {
        forall i | 0 <= i < |segs[1..]| ensures segs[1..][i] != "" && Slashless(segs[1..][i]) {
          assert segs[1..][i] == segs[i + 1];
        }
      }
      PathOfShaped(segs[1..]);
      var p := "/" + s + rest;
      assert PathOf(segs) == p;
      forall i | 0 <= i < |p| - 1 ensures !(p[i] == '/' && p[i + 1] == '/') {
        if i + 1 <= |s| {
          assert p[i + 1] == s[i];
        } else if i == |s| {
          assert p[i] == s[|s| - 1];
        } else {
          assert p[i] == rest[i - 1 - |s|] && p[i + 1] == rest[i - |s|];
        }
      }
      if rest == [] {
        assert p[|p| - 1] == s[|s| - 1];
      } else {
        assert p[|p| - 1] == rest[|rest| - 1];
      }
    }
  }

  /** The route at index k alone decides every path it matches. */
  lemma RouteDecides(k: nat, segs: seq<string>, authenticated: bool, user: Option<Auth.Claims>)
    requires k < |AppRoutes| && Matches(AppRoutes[k].pattern, segs)
    requires ProperSegments(segs)
    ensures Resolve(PathOf(segs), authenticated, user) == Guarded(AppRoutes[k], authenticated, user)
  {
    PathOfShaped(segs);
    SegmentsOfPath(segs);
    var r := FirstMatch(AppRoutes, segs);
    var m :| 0 <= m < |AppRoutes| && AppRoutes[m] == r.value;
    RoutesAreDisjoint(segs, m, k);
  }
}

module RouteTable {
  import opened Js
  import Auth
  import opened Routes

  lemma OneSegment(s: string)
    requires s != "" && Slashless(s)
    ensures PathOf([s]) == "/" + s && ProperSegments([s])
  {
    assert PathOf([s]) == "/" + s + PathOf([]);
  }

  /** A path built from segments is decided by the route that matches them. */
  lemma ResolvePath(path: string, segs: seq<string>, k: nat, authenticated: bool, user: Option<Auth.Claims>)
    requires ProperSegments(segs) && path == PathOf(segs)
    requires k < |AppRoutes| && Matches(AppRoutes[k].pattern, segs)
    ensures Resolve(path, authenticated, user) == Guarded(AppRoutes[k], authenticated, user)
  {
    RouteDecides(k, segs, authenticated, user);
  }

  /** A one-segment path is decided by the route whose pattern is that
      segment. */
  lemma ResolveOneSegment(path: string, s: string, k: nat, authenticated: bool, user: Option<Auth.Claims>)
    requires s != "" && Slashless(s) && NoUpper(s) && path == "/" + s
    requires k < |AppRoutes| && AppRoutes[k].pattern == [Lit(s)]
    ensures Resolve(path, authenticated, user) == Guarded(AppRoutes[k], authenticated, user)
  {
    OneSegment(s);
    LowerIdentity(s);
    RouteDecides(k, [s], authenticated, user);
  }

  /** A path whose segments no route claims matches nothing. */
  lemma Unmatched(path: string, segs: seq<string>, authenticated: bool, user: Option<Auth.Claims>)
    requires ProperSegments(segs) && path == PathOf(segs) && RouteIndex(segs).None?
    ensures Resolve(path, authenticated, user) == NoMatch
  {
    PathOfShaped(segs);
    SegmentsOfPath(segs);
    forall k | 0 <= k < |AppRoutes| ensures !Matches(AppRoutes[k].pattern, segs) {
      MatchIndexIff(k, segs);
    }
  }

  lemma LoginRoute(authenticated: bool, user: Option<Auth.Claims>)
    ensures Resolve("/login", authenticated, user) == Render(LoginPage)
  {
    ResolveOneSegment("/login", "login", 1, authenticated, user);
  }

  lemma RegisterRoute(authenticated: bool, user: Option<Auth.Claims>)
    ensures Resolve("/register", authenticated, user) == Render(RegisterPage)
  {
    ResolveOneSegment("/register", "register", 2, authenticated, user);
  }

  lemma ProductsRoute(authenticated: bool, user: Option<Auth.Claims>)
    ensures Resolve("/products", authenticated, user) == Render(ProductList)
  {
    ResolveOneSegment("/products", "products", 3, authenticated, user);
  }

  lemma UnauthorizedPathRoute(authenticated: bool, user: Option<Auth.Claims>)
    ensures Resolve("/unauthorized", authenticated, user) == Render(Unauthorized)
  {
    ResolveOneSegment("/unauthorized", "unauthorized", 11, authenticated, user);
  }

  lemma HomeRoute(authenticated: bool, user: Option<Auth.Claims>)
    ensures Resolve("/", authenticated, user) == Render(Home)
  {
    assert TrimTrailing("/") == "";
  }

  /** "/", "/login", "/register", "/products" and "/unauthorized" sit behind
      no guard: they render for every session. */
  lemma PublicRoutes(authenticated: bool, user: Option<Auth.Claims>)
    ensures Resolve("/", authenticated, user) == Render(Home)
    ensures Resolve("/login", authenticated, user) == Render(LoginPage)
    ensures Resolve("/register", authenticated, user) == Render(RegisterPage)
    ensures Resolve("/products", authenticated, user) == Render(ProductList)
    ensures Resolve("/unauthorized", authenticated, user) == Render(Unauthorized)
  {
    HomeRoute(authenticated, user);
    LoginRoute(authenticated, user);
    RegisterRoute(authenticated, user);
    ProductsRoute(authenticated, user);
    UnauthorizedPathRoute(authenticated, user);
  }

  /** The guard with no role list: logged-out sessions go to /login. */
  function LoginRequired(authenticated: bool, page: Page): Outcome
  {
    if authenticated then Render(page) else Navigate("/login")
  }

  /** The seller guard: logged out to /login, any non-seller to /unauthorized. */
  function SellerRequired(authenticated: bool, user: Option<Auth.Claims>, page: Page): Outcome
  {
    if !authenticated then Navigate("/login")
    else if Auth.HasSellerRole(user) then Render(page)
    else Navigate("/unauthorized")
  }

  lemma ProfileRoute(authenticated: bool, user: Option<Auth.Claims>)
    ensures Resolve("/profile", authenticated, user) == LoginRequired(authenticated, Profile)
  {
    ResolveOneSegment("/profile", "profile", 4, authenticated, user);
  }

  lemma CartRoute(authenticated: bool, user: Option<Auth.Claims>)
    ensures Resolve("/cart", authenticated, user) == LoginRequired(authenticated, CartPage)
  {
    ResolveOneSegment("/cart", "cart", 5, authenticated, user);
  }

  lemma CheckoutRoute(authenticated: bool, user: Option<Auth.Claims>)
    ensures Resolve("/checkout", authenticated, user) == LoginRequired(authenticated, CheckoutPage)
  {
    ResolveOneSegment("/checkout", "checkout", 6, authenticated, user);
  }

  lemma OrdersRoute(authenticated: bool, user: Option<Auth.Claims>)
    ensures Resolve("/orders", authenticated, user) == LoginRequired(authenticated, OrdersPage)
  {
    ResolveOneSegment("/orders", "orders", 7, authenticated, user);
  }

  /** "/profile", "/cart", "/checkout" and "/orders" need a session, whatever
      its role. */
  lemma SessionRoutes(authenticated: bool, user: Option<Auth.Claims>)
    ensures Resolve("/profile", authenticated, user) == LoginRequired(authenticated, Profile)
    ensures Resolve("/cart", authenticated, user) == LoginRequired(authenticated, CartPage)
    ensures Resolve("/checkout", authenticated, user) == LoginRequired(authenticated, CheckoutPage)
    ensures Resolve("/orders", authenticated, user) == LoginRequired(authenticated, OrdersPage)
  {
    ProfileRoute(authenticated, user);
    CartRoute(authenticated, user);
    CheckoutRoute(authenticated, user);
    OrdersRoute(authenticated, user);
  }

  lemma TwoSegments(s: string, t: string)
    requires s != "" && Slashless(s) && t != "" && Slashless(t)
    ensures PathOf([s, t]) == "/" + s + "/" + t && ProperSegments([s, t])
  {
    OneSegment(t);
    assert [s, t][1..] == [t];
    assert PathOf([s, t]) == "/" + s + PathOf([t]);
  }

  lemma ThreeSegments(s: string, t: string, u: string)
    requires s != "" && Slashless(s) && t != "" && Slashless(t) && u != "" && Slashless(u)
    ensures PathOf([s, t, u]) == "/" + s + "/" + t + "/" + u && ProperSegments([s, t, u])
  {
    TwoSegments(t, u);
    assert [s, t, u][1..] == [t, u];
    assert PathOf([s, t, u]) == "/" + s + PathOf([t, u]);
  }

  /** A two-segment path is decided by the route whose pattern is those two
      literals. */
  lemma ResolveTwoSegments(path: string, s: string, t: string, k: nat, authenticated: bool, user: Option<Auth.Claims>)
    requires s != "" && Slashless(s) && NoUpper(s) && t != "" && Slashless(t) && NoUpper(t)
    requires path == "/" + s + "/" + t
    requires k < |AppRoutes| && AppRoutes[k].pattern == [Lit(s), Lit(t)]
    ensures Resolve(path, authenticated, user) == Guarded(AppRoutes[k], authenticated, user)
  {
    TwoSegments(s, t);
    LowerIdentity(s);
    LowerIdentity(t);
    RouteDecides(k, [s, t], authenticated, user);
  }

  lemma ProductCreateRoute(authenticated: bool, user: Option<Auth.Claims>)
    ensures Resolve("/products/create", authenticated, user) == SellerRequired(authenticated, user, ProductCreate)
  {
    SellerGroupMatchesIsSeller(user);
    ResolveTwoSegments("/products/create", "products", "create", 8, authenticated, user);
  }

  /** Two literals and a parameter match two lower-case segments and any third. */
  lemma MatchesLiteralsThenParam(s: string, t: string, u: string)
    requires NoUpper(s) && NoUpper(t)
    ensures Matches([Lit(s), Lit(t), Param], [s, t, u])
  {
    LowerIdentity(s);
    LowerIdentity(t);
  }

  lemma ProductEditRoute(authenticated: bool, user: Option<Auth.Claims>, id: string)
    requires id != "" && Slashless(id)
    ensures Resolve("/products/edit/" + id, authenticated, user) == SellerRequired(authenticated, user, ProductEdit)
  {
    SellerGroupMatchesIsSeller(user);
    ThreeSegments("products", "edit", id);
    assert "/products/edit/" == "/" + "products" + "/" + "edit" + "/";
    ResolvePath("/products/edit/" + id, ["products", "edit", id], 9, authenticated, user) by {
      MatchesLiteralsThenParam("products", "edit", id);
    }
  }

  lemma SellerOrdersRoute(authenticated: bool, user: Option<Auth.Claims>)
    ensures Resolve("/seller/orders", authenticated, user) == SellerRequired(authenticated, user, SellerOrders)
  {
    SellerGroupMatchesIsSeller(user);
    ResolveTwoSegments("/seller/orders", "seller", "orders", 10, authenticated, user);
  }

  /** "/products/create", "/products/edit/<id>" and "/seller/orders" need a
      session whose user is a seller. */
  lemma SellerRoutes(authenticated: bool, user: Option<Auth.Claims>, id: string)
    requires id != "" && Slashless(id)
    ensures Resolve("/products/create", authenticated, user) == SellerRequired(authenticated, user, ProductCreate)
    ensures Resolve("/products/edit/" + id, authenticated, user) == SellerRequired(authenticated, user, ProductEdit)
    ensures Resolve("/seller/orders", authenticated, user) == SellerRequired(authenticated, user, SellerOrders)
  {
    ProductCreateRoute(authenticated, user);
    ProductEditRoute(authenticated, user, id);
    SellerOrdersRoute(authenticated, user);
  }

  /** A logged-in customer is turned away from the seller pages, and a
      logged-in seller may use the cart. */
  lemma RolesAcrossGroups(customer: Auth.Claims, seller: Auth.Claims)
    requires customer.role == Some("customer") && seller.role == Some("seller")
    ensures Resolve("/seller/orders", true, Some(customer)) == Navigate("/unauthorized")
    ensures Resolve("/products/create", true, Some(customer)) == Navigate("/unauthorized")
    ensures Resolve("/cart", true, Some(seller)) == Render(CartPage)
  {
    SellerRoutes(true, Some(customer), "x");
    SessionRoutes(true, Some(seller));
  }

  /** Reloading a seller page with an unexpired seller token in storage: the
      freshly mounted provider is already authenticated, because
      `isAuthenticated` decodes the token itself, but its user is still null
      until the decode effect runs. The route guard runs first, so the
      seller is sent to /unauthorized from every seller page. */
  method ReloadedSellerPageRefused(stored: string, decode: string -> Option<Auth.Claims>, exp: int, now: int, id: string)
    returns (p: Auth.AuthProvider)
    requires stored != "" && decode(stored) == Some(Auth.Claims(Some(exp), Some("seller"))) && exp * 1000 > now
    requires id != "" && Slashless(id)
    ensures p.IsAuthenticated(now) && p.user == None
    ensures Resolve("/products/create", p.IsAuthenticated(now), p.user) == Navigate("/unauthorized")
    ensures Resolve("/products/edit/" + id, p.IsAuthenticated(now), p.user) == Navigate("/unauthorized")
    ensures Resolve("/seller/orders", p.IsAuthenticated(now), p.user) == Navigate("/unauthorized")
  {
    p := new Auth.AuthProvider(Some(stored), decode);
    SellerRoutes(p.IsAuthenticated(now), p.user, id);
  }

  /** The only checkout route is "/checkout" itself: "/checkout/<id>", which
      "Buy Now" navigates to, matches no route, and neither does
      "/orders/<id>", where a placed order leads. */
  lemma DetailPathsUnrouted(id: string, authenticated: bool, user: Option<Auth.Claims>)
    requires id != "" && Slashless(id)
    ensures Resolve("/checkout/" + id, authenticated, user) == NoMatch
    ensures Resolve("/orders/" + id, authenticated, user) == NoMatch
  {
    UnmatchedUnder("/checkout/" + id, "checkout", id, authenticated, user);
    UnmatchedUnder("/orders/" + id, "orders", id, authenticated, user);
  }

  /** "/s/t" matches nothing when s leads no two-segment route. */
  lemma UnmatchedUnder(path: string, s: string, t: string, authenticated: bool, user: Option<Auth.Claims>)
    requires s != "" && Slashless(s) && NoUpper(s) && t != "" && Slashless(t)
    requires s != "products" && s != "seller" && path == "/" + s + "/" + t
    ensures Resolve(path, authenticated, user) == NoMatch
  {
    TwoSegments(s, t);
    LowerIdentity(s);
    Unmatched(path, [s, t], authenticated, user);
  }

  /** Trailing slashes change nothing: "/cart/" is "/cart". */
  lemma TrailingSlashIgnored(path: string, authenticated: bool, user: Option<Auth.Claims>)
    ensures Resolve(path + "/", authenticated, user) == Resolve(path, authenticated, user)
  {
    assert (path + "/")[..|path|] == path;
  }

  /** A path with two slashes in a row before its last segment, such as
      "//cart", matches no route. */
  lemma RepeatedSlashUnrouted(before: string, after: string, authenticated: bool, user: Option<Auth.Claims>)
    requires after != [] && after[|after| - 1] != '/'
    ensures Resolve(before + "//" + after, authenticated, user) == NoMatch
  {
    var p := before + "//" + after;
    assert p[|p| - 1] == after[|after| - 1];
    assert p[|before|] == '/' && p[|before| + 1] == '/';
  }

  /** Case does not matter: segments that agree up to case resolve alike. */
  lemma CaseIgnored(segs: seq<string>, segs': seq<string>, authenticated: bool, user: Option<Auth.Claims>)
    requires ProperSegments(segs) && ProperSegments(segs')
    requires |segs| == |segs'| && forall i :: 0 <= i < |segs| ==> Lower(segs[i]) == Lower(segs'[i])
    ensures Resolve(PathOf(segs), authenticated, user) == Resolve(PathOf(segs'), authenticated, user)
  {
    assert RouteIndex(segs) == RouteIndex(segs');
    match RouteIndex(segs)
    case None =>
      Unmatched(PathOf(segs), segs, authenticated, user);
      Unmatched(PathOf(segs'), segs', authenticated, user);
    case Some(k) =>
      MatchIndexIff(k, segs);
      MatchIndexIff(k, segs');
      RouteDecides(k, segs, authenticated, user);
      RouteDecides(k, segs', authenticated, user);
  }

  /** "/CART" is the cart page, behind the same guard as "/cart". */
  lemma UpperCaseCart(authenticated: bool, user: Option<Auth.Claims>)
    ensures Resolve("/CART", authenticated, user) == LoginRequired(authenticated, CartPage)
  {
    OneSegment("CART");
    ResolvePath("/CART", ["CART"], 5, authenticated, user);
  }
}
