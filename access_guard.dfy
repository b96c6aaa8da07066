/** The server's access guard (`authHandler`), the table that registers each route
    with its guard, and the two page handlers that send visitors without a session
    to the login page. */
module AccessGuard {
  import opened Api

  /** What `session.Get("user")` yields: nil, or the string the login handler stored. */
  datatype Cookie = NoCookie | CookieText(text: string)

  /** True when the guard's `userCookie == nil || userCookie == ""` is false: a
      missing cookie and an empty one both mean no session. */
  function HasSession(cookie: Cookie): (b: bool)
    ensures cookie == NoCookie || cookie == CookieText("") ==> !b
    ensures b <==> cookie.CookieText? && |cookie.text| > 0
  {
    cookie.CookieText? && cookie.text != ""
  }

  /** What `json.Unmarshal` does to the `*UserStruct` variable: JSON `null` sets the
      pointer to nil; text that does not parse leaves it pointing at the zero struct. */
  datatype Decoded = DecodedNull | DecodedUser(isAdmin: bool) | Undecodable

  /** UserStruct, reduced to the field the guard reads. */
  datatype UserStruct = UserStruct(isAdmin: bool)

  /** The pointer after `user := &UserStruct{}` and the Unmarshal call. */
  function UserAfterUnmarshal(d: Decoded): (u: Option<UserStruct>)
    ensures u.Some? && u.value.isAdmin <==> d == DecodedUser(true)
  {
    match d
    case DecodedNull => None
    case DecodedUser(admin) => Some(UserStruct(admin))
    case Undecodable => Some(UserStruct(false))
  }

  /** Every guarded request ends in exactly one of these. */
  datatype Verdict = Abort403 | Next

  /** `authHandler(isAdmin, configToken)` applied to one request. `header` is the
      `x-auth-token` header (gin yields "" when it is missing); `unmarshal` is what
      `json.Unmarshal` makes of a cookie's text. */
  function AuthHandler(isAdmin: bool, configToken: string, cookie: Cookie, header: string,
                       unmarshal: string -> Decoded): (v: Verdict)
    ensures v == Next <==>
      header == configToken || (HasSession(cookie) && (!isAdmin || unmarshal(cookie.text) == DecodedUser(true)))
    ensures header == configToken ==> v == Next
    ensures !HasSession(cookie) && header != configToken ==> v == Abort403
    ensures !isAdmin && HasSession(cookie) ==> v == Next
    ensures isAdmin && header != configToken && HasSession(cookie) ==>
      (v == Next <==> unmarshal(cookie.text) == DecodedUser(true))
  {
    if !HasSession(cookie) && header != configToken then
      Abort403
    else if isAdmin && header != configToken then
      // Here the cookie is a non-empty string, so `userCookie.(string)` cannot panic.
      var user := UserAfterUnmarshal(unmarshal(cookie.text));
      if user.None? || !user.value.isAdmin then Abort403 else Next
    else
      Next
  }

  /** An empty configured token opens every guard to a request without the header. */
  lemma EmptyTokenOpensEveryGuard(isAdmin: bool, cookie: Cookie, unmarshal: string -> Decoded)
    ensures AuthHandler(isAdmin, "", cookie, "", unmarshal) == Next
  {
  }

  /** The verbs of the registrations; `ANY` is `router.Any`, which registers a
      handler for every verb. */
  datatype Verb = GET | POST | PUT | DELETE | ANY

  /** Open: no guard; UserGuard: `authHandler(false, ...)`; AdminGuard: `authHandler(true, ...)`. */
  datatype Guard = Open | UserGuard | AdminGuard

  datatype Route = Route(verb: Verb, pattern: string, guard: Guard)

  /** The registrations in `main`, in order and grouped as there (static file
      serving is middleware, not a route). */
  const PageRoutes: seq<Route> := [
    Route(ANY, "/", Open),
    Route(GET, "/admin", AdminGuard)
  ]

  const SessionRoutes: seq<Route> := [
    Route(POST, "/login", Open),
    Route(GET, "/login", Open),
    Route(GET, "/logout", Open)
  ]

  const UserRoutes: seq<Route> := [
    Route(GET, "/api/user", UserGuard),
    Route(POST, "/api/user", AdminGuard),
    Route(DELETE, "/api/user/:userId", AdminGuard),
    Route(GET, "/api/users", AdminGuard)
  ]

  const OrdersRoutes: seq<Route> := [
    Route(GET, "/api/orders/earnings", AdminGuard),
    Route(GET, "/api/orders/earnings/:day", AdminGuard),
    Route(GET, "/api/orders/totals/export", AdminGuard),
    Route(GET, "/api/orders", UserGuard),
    Route(GET, "/api/orders/past_year", AdminGuard)
  ]

  const OrderRoutes: seq<Route> := [
    Route(POST, "/api/order", UserGuard),
    Route(GET, "/api/order/:orderId", UserGuard),
    Route(GET, "/api/order/:orderId/receipt/:printerId", UserGuard),
    Route(GET, "/api/order/:orderId/pub", Open),
    Route(GET, "/api/order/:orderId/qrcode", UserGuard),
    Route(PUT, "/api/order/:orderId/product/:productId/:state", UserGuard),
    Route(DELETE, "/api/order/:orderId", AdminGuard)
  ]

  const ProductRoutes: seq<Route> := [
    Route(POST, "/api/product", AdminGuard),
    Route(GET, "/api/products", UserGuard),
    Route(PUT, "/api/product/:productId", UserGuard),
    Route(DELETE, "/api/product/:productId", UserGuard),
    Route(PUT, "/api/product/type", AdminGuard),
    Route(GET, "/api/product/types", Open)
  ]

  const StationRoutes: seq<Route> := [
    Route(POST, "/api/station", AdminGuard),
    Route(POST, "/api/station/:stationId/:productId", AdminGuard),
    Route(DELETE, "/api/station/:stationId/:productId", AdminGuard),
    Route(GET, "/api/station/:stationId", UserGuard),
    Route(DELETE, "/api/station/:stationId", AdminGuard),
    Route(GET, "/api/stations", UserGuard)
  ]

  const OtherRoutes: seq<Route> := [
    Route(GET, "/api/printers", Open),
    Route(GET, "/api/products/ws", UserGuard),
    Route(GET, "/api/products/stream", UserGuard),
    Route(GET, "/api/orders/stream", UserGuard)
  ]

  const FrontRoutes: seq<Route> := PageRoutes + SessionRoutes + UserRoutes + OrdersRoutes

  const BackRoutes: seq<Route> := OrderRoutes + ProductRoutes + StationRoutes + OtherRoutes

  const Routes: seq<Route> := FrontRoutes + BackRoutes

  /** A registration serves a request for its own verb, or for every verb when it
      was made with `router.Any`. */
  predicate Matches(r: Route, verb: Verb, pattern: string) {
    r.pattern == pattern && (r.verb == verb || r.verb == ANY)
  }

  /** The guard of the first registration that serves a verb and pattern, if any. */
  function GuardOf(routes: seq<Route>, verb: Verb, pattern: string): (g: Option<Guard>)
    ensures g.None? <==> forall i :: 0 <= i < |routes| ==> !Matches(routes[i], verb, pattern)
    ensures g.Some? ==> exists i :: 0 <= i < |routes| && Matches(routes[i], verb, pattern) && routes[i].guard == g.value
    decreases |routes|
  {
    if routes == [] then None
    else if Matches(routes[0], verb, pattern) then Some(routes[0].guard)
    else
      var g := GuardOf(routes[1..], verb, pattern);
      assert forall i :: 1 <= i < |routes| ==> routes[i] == routes[1..][i - 1];
      g
  }

  /** The endpoints registered behind a given guard, in registration order. */
  function Endpoints(routes: seq<Route>, guard: Guard): (es: seq<(Verb, string)>)
    decreases |routes|
  {
    if routes == [] then []
    else if routes[0].guard == guard then [(routes[0].verb, routes[0].pattern)] + Endpoints(routes[1..], guard)
    else Endpoints(routes[1..], guard)
  }

  /** An endpoint is listed exactly when some registration puts it behind that guard. */
  lemma {:induction false} EndpointsListed(routes: seq<Route>, guard: Guard, e: (Verb, string))
    ensures e in Endpoints(routes, guard) <==> exists i :: 0 <= i < |routes| && routes[i] == Route(e.0, e.1, guard)
    decreases |routes|
  {
    if routes != [] {
      EndpointsListed(routes[1..], guard, e);
      assert forall i :: 1 <= i < |routes| ==> routes[i] == routes[1..][i - 1];
      if e in Endpoints(routes[1..], guard) {
        var i :| 0 <= i < |routes[1..]| && routes[1..][i] == Route(e.0, e.1, guard);
        assert routes[i + 1] == Route(e.0, e.1, guard);
      }
    }
  }

  /** Filtering a table registered in two parts. */
  lemma {:induction false} EndpointsAppend(a: seq<Route>, b: seq<Route>, guard: Guard)
    ensures Endpoints(a + b, guard) == Endpoints(a, guard) + Endpoints(b, guard)
    decreases |a|
  {
    if a != [] {
      assert (a + b)[1..] == a[1..] + b;
      EndpointsAppend(a[1..], b, guard);
    } else {
      assert a + b == b;
    }
  }

  /** The admin-only endpoints: user management, the earnings figures and exports,
      the past-year orders, deleting an order, creating products and product types,
      and station management. */
  const AdminEndpoints: seq<(Verb, string)> := [
    (GET, "/admin"),
    (POST, "/api/user"),
    (DELETE, "/api/user/:userId"),
    (GET, "/api/users"),
    (GET, "/api/orders/earnings"),
    (GET, "/api/orders/earnings/:day"),
    (GET, "/api/orders/totals/export"),
    (GET, "/api/orders/past_year"),
    (DELETE, "/api/order/:orderId"),
    (POST, "/api/product"),
    (PUT, "/api/product/type"),
    (POST, "/api/station"),
    (POST, "/api/station/:stationId/:productId"),
    (DELETE, "/api/station/:stationId/:productId"),
    (DELETE, "/api/station/:stationId")
  ]

  /** The endpoints without any guard: the two pages, login and logout, the public
      order view, the product types and the printers. */
  const OpenEndpoints: seq<(Verb, string)> := [
    (ANY, "/"),
    (POST, "/login"),
    (GET, "/login"),
    (GET, "/logout"),
    (GET, "/api/order/:orderId/pub"),
    (GET, "/api/product/types"),
    (GET, "/api/printers")
  ]

  /** The endpoints behind the user guard: any session or the token will do. */
  const UserEndpoints: seq<(Verb, string)> := [
    (GET, "/api/user"),
    (GET, "/api/orders"),
    (POST, "/api/order"),
    (GET, "/api/order/:orderId"),
    (GET, "/api/order/:orderId/receipt/:printerId"),
    (GET, "/api/order/:orderId/qrcode"),
    (PUT, "/api/order/:orderId/product/:productId/:state"),
    (GET, "/api/products"),
    (PUT, "/api/product/:productId"),
    (DELETE, "/api/product/:productId"),
    (GET, "/api/station/:stationId"),
    (GET, "/api/stations"),
    (GET, "/api/products/ws"),
    (GET, "/api/products/stream"),
    (GET, "/api/orders/stream")
  ]

  /** Filtering a table registered in four parts. */
  lemma EndpointsOfFour(a: seq<Route>, b: seq<Route>, c: seq<Route>, d: seq<Route>, guard: Guard)
    ensures Endpoints(a + b + c + d, guard) ==
      Endpoints(a, guard) + Endpoints(b, guard) + Endpoints(c, guard) + Endpoints(d, guard)
  {
    EndpointsAppend(a, b, guard);
    EndpointsAppend(a + b, c, guard);
    EndpointsAppend(a + b + c, d, guard);
  }

  /** The guarded endpoints of the pages, the session routes, the user routes and `/api/orders/...`. */
  lemma FrontEndpoints()
    ensures Endpoints(FrontRoutes, AdminGuard) == [
      (GET, "/admin"),
      (POST, "/api/user"), (DELETE, "/api/user/:userId"), (GET, "/api/users"),
      (GET, "/api/orders/earnings"), (GET, "/api/orders/earnings/:day"), (GET, "/api/orders/totals/export"),
      (GET, "/api/orders/past_year")]
    ensures Endpoints(FrontRoutes, Open) == [(ANY, "/"), (POST, "/login"), (GET, "/login"), (GET, "/logout")]
    ensures Endpoints(FrontRoutes, UserGuard) == [(GET, "/api/user"), (GET, "/api/orders")]
  {
    EndpointsOfFour(PageRoutes, SessionRoutes, UserRoutes, OrdersRoutes, AdminGuard);
    EndpointsOfFour(PageRoutes, SessionRoutes, UserRoutes, OrdersRoutes, Open);
    EndpointsOfFour(PageRoutes, SessionRoutes, UserRoutes, OrdersRoutes, UserGuard);
  }

  /** The guarded endpoints of `/api/order/...`, the products, the stations and the rest. */
  lemma BackEndpoints()
    ensures Endpoints(BackRoutes, AdminGuard) == [
      (DELETE, "/api/order/:orderId"),
      (POST, "/api/product"), (PUT, "/api/product/type"),
      (POST, "/api/station"), (POST, "/api/station/:stationId/:productId"),
      (DELETE, "/api/station/:stationId/:productId"), (DELETE, "/api/station/:stationId")]
    ensures Endpoints(BackRoutes, Open) == [(GET, "/api/order/:orderId/pub"), (GET, "/api/product/types"), (GET, "/api/printers")]
    ensures Endpoints(BackRoutes, UserGuard) == UserEndpoints[2..]
  {
    EndpointsOfFour(OrderRoutes, ProductRoutes, StationRoutes, OtherRoutes, AdminGuard);
    EndpointsOfFour(OrderRoutes, ProductRoutes, StationRoutes, OtherRoutes, Open);
    EndpointsOfFour(OrderRoutes, ProductRoutes, StationRoutes, OtherRoutes, UserGuard);
  }

  /** Exactly the admin-only endpoints sit behind the admin guard, exactly the
      session endpoints behind the user guard, and exactly the public ones are
      registered without a guard, in registration order. */
  lemma RouteGuards()
    ensures Endpoints(Routes, AdminGuard) == AdminEndpoints
    ensures Endpoints(Routes, UserGuard) == UserEndpoints
    ensures Endpoints(Routes, Open) == OpenEndpoints
  {
    EndpointsAppend(FrontRoutes, BackRoutes, AdminGuard);
    EndpointsAppend(FrontRoutes, BackRoutes, UserGuard);
    EndpointsAppend(FrontRoutes, BackRoutes, Open);
    FrontEndpoints();
    BackEndpoints();
    assert UserEndpoints == UserEndpoints[..2] + UserEndpoints[2..];
  }

  /** No endpoint is listed under two guards. */
  lemma GuardListsDisjoint()
    ensures forall e :: e in AdminEndpoints ==> e !in UserEndpoints && e !in OpenEndpoints
    ensures forall e :: e in UserEndpoints ==> e !in OpenEndpoints
  {
  }

  /** `/` is the only pattern registered with `router.Any`, and nothing else is
      registered at `/`: one lemma per list. */
  lemma AdminOffRoot()
    ensures forall e :: e in AdminEndpoints ==> e.0 != ANY && e.1 != "/"
  {
  }

  lemma UserOffRoot()
    ensures forall e :: e in UserEndpoints ==> e.0 != ANY && e.1 != "/"
  {
  }

  lemma OpenRootIsAny()
    ensures forall e :: e in OpenEndpoints ==> (e.0 == ANY <==> e.1 == "/")
  {
  }

  /** A request whose serving registrations, under its own verb or under `ANY`,
      are all behind one guard runs that guard. */
  lemma {:induction false} GuardOfListed(routes: seq<Route>, guard: Guard, verb: Verb, pattern: string)
    requires (verb, pattern) in Endpoints(routes, guard) || (ANY, pattern) in Endpoints(routes, guard)
    requires forall other :: other != guard ==>
      (verb, pattern) !in Endpoints(routes, other) && (ANY, pattern) !in Endpoints(routes, other)
    ensures GuardOf(routes, verb, pattern) == Some(guard)
  {
    EndpointsListed(routes, guard, (verb, pattern));
    EndpointsListed(routes, guard, (ANY, pattern));
    var g := GuardOf(routes, verb, pattern);
    if g.Some? {
      EndpointsListed(routes, g.value, (verb, pattern));
      EndpointsListed(routes, g.value, (ANY, pattern));
    }
  }

  /** The lookup for any table whose three guard lists are disjoint and which
      registers `ANY` only at `/`, the one pattern with no other verb. */
  lemma {:induction false} ListedGuard(routes: seq<Route>, admin: seq<(Verb, string)>, user: seq<(Verb, string)>,
                                       open: seq<(Verb, string)>, verb: Verb, pattern: string)
    requires Endpoints(routes, AdminGuard) == admin
    requires Endpoints(routes, UserGuard) == user
    requires Endpoints(routes, Open) == open
    requires forall e :: e in admin ==> e !in user && e !in open
    requires forall e :: e in user ==> e !in open
    requires forall e :: e in admin ==> e.0 != ANY && e.1 != "/"
    requires forall e :: e in user ==> e.0 != ANY && e.1 != "/"
    requires forall e :: e in open ==> (e.0 == ANY <==> e.1 == "/")
    ensures GuardOf(routes, verb, pattern).None? <==>
      (verb, pattern) !in admin + user + open && (ANY, pattern) !in admin + user + open
    ensures (verb, pattern) in admin ==> GuardOf(routes, verb, pattern) == Some(AdminGuard)
    ensures (verb, pattern) in user ==> GuardOf(routes, verb, pattern) == Some(UserGuard)
    ensures (verb, pattern) in open || (ANY, pattern) in open ==> GuardOf(routes, verb, pattern) == Some(Open)
  {
    if (verb, pattern) in admin {
      GuardOfListed(routes, AdminGuard, verb, pattern);
    } else if (verb, pattern) in user {
      GuardOfListed(routes, UserGuard, verb, pattern);
    } else if (verb, pattern) in open || (ANY, pattern) in open {
      GuardOfListed(routes, Open, verb, pattern);
    } else {
      var g := GuardOf(routes, verb, pattern);
      if g.Some? {
        var i :| 0 <= i < |routes| && Matches(routes[i], verb, pattern) && routes[i].guard == g.value;
        EndpointsListed(routes, g.value, (routes[i].verb, pattern));
      }
    }
  }

  /** A request is served exactly when its verb and pattern, or `ANY` and its
      pattern, is in one of the three lists, and it runs the guard of that list. */
  lemma TableGuard(verb: Verb, pattern: string)
    ensures GuardOf(Routes, verb, pattern).None? <==>
      (verb, pattern) !in AdminEndpoints + UserEndpoints + OpenEndpoints &&
      (ANY, pattern) !in AdminEndpoints + UserEndpoints + OpenEndpoints
    ensures (verb, pattern) in AdminEndpoints ==> GuardOf(Routes, verb, pattern) == Some(AdminGuard)
    ensures (verb, pattern) in UserEndpoints ==> GuardOf(Routes, verb, pattern) == Some(UserGuard)
    ensures (verb, pattern) in OpenEndpoints || (ANY, pattern) in OpenEndpoints ==>
      GuardOf(Routes, verb, pattern) == Some(Open)
  {
    RouteGuards();
    GuardListsDisjoint();
    AdminOffRoot();
    UserOffRoot();
    OpenRootIsAny();
    ListedGuard(Routes, AdminEndpoints, UserEndpoints, OpenEndpoints, verb, pattern);
  }

  /** The outcome of a request: no registration, stopped by the guard, or passed on
      to the route's handler. */
  datatype Outcome = NotFound | Forbidden | Handled

  /** The middleware chain of one registered route: the guard, if any, then the handler. */
  function Serve(guard: Guard, configToken: string, cookie: Cookie, header: string,
                 unmarshal: string -> Decoded): (o: Outcome)
    ensures o != NotFound
    ensures guard == Open ==> o == Handled
    ensures guard == UserGuard ==> (o == Handled <==> header == configToken || HasSession(cookie))
    ensures guard == AdminGuard ==>
      (o == Handled <==> header == configToken || (HasSession(cookie) && unmarshal(cookie.text) == DecodedUser(true)))
  {
    match guard
    case Open => Handled
    case UserGuard => if AuthHandler(false, configToken, cookie, header, unmarshal) == Next then Handled else Forbidden
    case AdminGuard => if AuthHandler(true, configToken, cookie, header, unmarshal) == Next then Handled else Forbidden
  }

  /** The router: look the verb and pattern up in the table, then run its chain. */
  function Dispatch(verb: Verb, pattern: string, configToken: string, cookie: Cookie, header: string,
                    unmarshal: string -> Decoded): (o: Outcome)
    ensures o == NotFound <==>
      (verb, pattern) !in AdminEndpoints + UserEndpoints + OpenEndpoints &&
      (ANY, pattern) !in AdminEndpoints + UserEndpoints + OpenEndpoints
    ensures pattern == "/" ==> o == Handled
    ensures (verb, pattern) in AdminEndpoints ==>
      (o == Handled <==> header == configToken || (HasSession(cookie) && unmarshal(cookie.text) == DecodedUser(true)))
    ensures (verb, pattern) in UserEndpoints ==> (o == Handled <==> header == configToken || HasSession(cookie))
    ensures (verb, pattern) in OpenEndpoints ==> o == Handled
    ensures o == Forbidden ==> header != configToken
  {
    TableGuard(verb, pattern);
    match GuardOf(Routes, verb, pattern)
    case None => NotFound
    case Some(g) => Serve(g, configToken, cookie, header, unmarshal)
  }

  /** What a page request ends with. */
  datatype PageResult = PageForbidden | Redirect(status: int, location: string) | Render(title: string, admin: bool)

  const LoginRedirect: PageResult := Redirect(301, "/login")

  /** The `/` handler (no guard). */
  function RootPage(cookie: Cookie): (p: PageResult)
    ensures !HasSession(cookie) <==> p == LoginRedirect
    ensures HasSession(cookie) ==> p == Render("POS", false)
  {
    if !HasSession(cookie) then LoginRedirect else Render("POS", false)
  }

  /** `/admin`: the admin guard runs first, then the handler's own cookie check. */
  function AdminPage(configToken: string, cookie: Cookie, header: string, unmarshal: string -> Decoded): (p: PageResult)
    ensures p.Render? ==> p == Render("POS Admin", true) && HasSession(cookie)
    ensures !HasSession(cookie) ==> p == (if header == configToken then LoginRedirect else PageForbidden)
    ensures p.Render? <==>
      HasSession(cookie) && (header == configToken || unmarshal(cookie.text) == DecodedUser(true))
    ensures HasSession(cookie) && !p.Render? ==> p == PageForbidden
  {
    if AuthHandler(true, configToken, cookie, header, unmarshal) == Abort403 then
      PageForbidden
    else if !HasSession(cookie) then
      LoginRedirect
    else
      Render("POS Admin", true)
  }
}
