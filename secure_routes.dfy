/**
 * The route table of the wiki with access control: the filters every
 * request passes, the session guard in front of the interactive pages, the
 * interactive endpoints, and the API router mounted under `/api` with its
 * bearer-token guard. `Chain(verb, path)` is the list of handlers whose
 * routes match a request, in registration order, which is the order the
 * router runs them in.
 */
module SecureRoutes {
  import opened Wrappers
  import opened JavaLang

  datatype Verb = Get | Post | Put | Delete

  /**
   * A route's path: any path, exactly one path, every path under a prefix
   * (as for the wiki pages), or a prefix followed by one path parameter (`/wiki/:page`).
   */
  datatype Pattern = AnyPath | Exact(path: string) | Prefix(prefix: string) | WithParam(before: string)

  datatype Handler =
    | Cookies | Bodies | Sessions | UserSessions | RedirectAuth
    | Index | PageRendering | PageUpdate | PageCreate | PageDeletion | Backup
    | Login | FormLogin | Logout
    | JwtAuth | ApiRoot | ApiGetPage | ApiCreatePage | ApiUpdatePage | ApiDeletePage | Token

  /** A registered route; a route without a verb matches every verb. */
  datatype Route = Route(verb: Option<Verb>, pattern: Pattern, handler: Handler)

  /** The filters registered on the main router, in order. */
  const Filters: seq<Route> := [
    Route(None, AnyPath, Cookies),
    Route(None, AnyPath, Bodies),
    Route(None, AnyPath, Sessions),
    Route(None, AnyPath, UserSessions),
    Route(None, Exact("/"), RedirectAuth),
    Route(None, Prefix("/wiki/"), RedirectAuth),
    Route(None, Prefix("/action/"), RedirectAuth)
  ]

  /** The main router's endpoints, in order. */
  const Endpoints: seq<Route> := [
    Route(Some(Get), Exact("/"), Index),
    Route(Some(Get), WithParam("/wiki/"), PageRendering),
    Route(Some(Post), Exact("/action/save"), PageUpdate),
    Route(Some(Post), Exact("/action/create"), PageCreate),
    Route(Some(Post), Exact("/action/delete"), PageDeletion),
    Route(Some(Get), Exact("/action/backup"), Backup),
    Route(Some(Get), Exact("/login"), Login),
    Route(Some(Post), Exact("/login-auth"), FormLogin),
    Route(Some(Get), Exact("/logout"), Logout)
  ]

  /** The API router's routes, relative to its mount point. */
  const ApiRoutes: seq<Route> := [
    Route(None, AnyPath, JwtAuth),
    Route(Some(Get), Exact("/pages"), ApiRoot),
    Route(Some(Get), WithParam("/pages/"), ApiGetPage),
    Route(Some(Post), AnyPath, Bodies),
    Route(Some(Post), Exact("/pages"), ApiCreatePage),
    Route(Some(Put), AnyPath, Bodies),
    Route(Some(Put), WithParam("/pages/"), ApiUpdatePage),
    Route(Some(Delete), WithParam("/pages/"), ApiDeletePage),
    Route(Some(Get), Exact("/token"), Token)
  ]

  /** Where the API router is mounted. */
  const ApiMount: string := "/api"

  /** The path the bearer-token guard lets through without a token. */
  const TokenPath: string := "/api/token"

  predicate PatternMatches(pattern: Pattern, path: string) {
    match pattern
    case AnyPath => true
    case Exact(p) => path == p
    case Prefix(p) => StartsWith(path, p)
    case WithParam(p) => StartsWith(path, p) && |path| > |p| && '/' !in path[|p|..]
  }

  predicate RouteMatches(route: Route, verb: Verb, path: string) {
    (route.verb.None? || route.verb == Some(verb)) && PatternMatches(route.pattern, path)
  }

  /** The handlers of the routes matching the request, in registration order. */
  function Matching(routes: seq<Route>, verb: Verb, path: string): seq<Handler> {
    MatchingFrom(routes, verb, path, 0)
  }

  /** The handlers of the matching routes from index `from` on. */
  function MatchingFrom(routes: seq<Route>, verb: Verb, path: string, from: nat): seq<Handler>
    requires from <= |routes|
    decreases |routes| - from
  {
    if from == |routes| then []
    else
      var rest := MatchingFrom(routes, verb, path, from + 1);
      if RouteMatches(routes[from], verb, path) then [routes[from].handler] + rest else rest
  }

  /** A handler is among the matching routes from `from` on exactly when one of those routes is its. */
  lemma {:induction false} MatchingFromHas(routes: seq<Route>, verb: Verb, path: string, from: nat, h: Handler)
    requires from <= |routes|
    ensures h in MatchingFrom(routes, verb, path, from) <==>
      exists k :: from <= k < |routes| && routes[k].handler == h && RouteMatches(routes[k], verb, path)
    decreases |routes| - from
  {
    if from < |routes| {
      MatchingFromHas(routes, verb, path, from + 1, h);
    }
  }

  /** The handler of a matching route is in the chain. */
  lemma RouteReached(routes: seq<Route>, k: nat, verb: Verb, path: string)
    requires k < |routes| && RouteMatches(routes[k], verb, path)
    ensures routes[k].handler in Matching(routes, verb, path)
  {
    MatchingFromHas(routes, verb, path, 0, routes[k].handler);
  }

  /** A handler is in the chain exactly when one of its routes matches. */
  lemma MatchingHas(routes: seq<Route>, verb: Verb, path: string, h: Handler)
    ensures h in Matching(routes, verb, path) <==> exists r :: r in routes && r.handler == h && RouteMatches(r, verb, path)
  {
    MatchingFromHas(routes, verb, path, 0, h);
    if h in Matching(routes, verb, path) {
      var k :| 0 <= k < |routes| && routes[k].handler == h && RouteMatches(routes[k], verb, path);
      assert routes[k] in routes;
    }
  }

  /** The path the API router sees: what follows the mount point. */
  function ApiPath(path: string): (inner: Option<string>)
    ensures inner.Some? <==> StartsWith(path, ApiMount + "/")
    ensures inner.Some? ==> path == ApiMount + inner.value
  {
    if StartsWith(path, ApiMount + "/") then Some(path[|ApiMount|..]) else None
  }

  /** The handlers a request runs through. */
  function Chain(verb: Verb, path: string): seq<Handler> {
    Matching(Filters, verb, path) + Matching(Endpoints, verb, path) + ApiChain(verb, path)
  }

  /** The bearer-token guard checks a token on every path but the token endpoint's. */
  predicate JwtEnforces(path: string) {
    !StartsWith(path, TokenPath)
  }

  /** `a` runs before `b`. */
  predicate Precedes(chain: seq<Handler>, a: Handler, b: Handler) {
    exists i, j :: 0 <= i < j < |chain| && chain[i] == a && chain[j] == b
  }

  /** The interactive endpoints that need a logged-in user. */
  predicate IsInteractive(h: Handler) {
    h.Index? || h.PageRendering? || h.PageUpdate? || h.PageCreate? || h.PageDeletion? || h.Backup?
  }

  /** The API endpoints behind the bearer-token guard. */
  predicate IsApiEndpoint(h: Handler) {
    h.ApiRoot? || h.ApiGetPage? || h.ApiCreatePage? || h.ApiUpdatePage? || h.ApiDeletePage?
  }

  lemma PrecedesAcross(x: seq<Handler>, y: seq<Handler>, a: Handler, b: Handler)
    requires a in x && b in y
    ensures Precedes(x + y, a, b)
  {
    var i :| 0 <= i < |x| && x[i] == a;
    var j :| 0 <= j < |y| && y[j] == b;
    assert (x + y)[i] == a && (x + y)[|x| + j] == b;
  }

  predicate IsFilter(h: Handler) {
    h.Cookies? || h.Bodies? || h.Sessions? || h.UserSessions? || h.RedirectAuth?
  }

  predicate IsMainEndpoint(h: Handler) {
    IsInteractive(h) || h.Login? || h.FormLogin? || h.Logout?
  }

  predicate IsApiHandler(h: Handler) {
    IsApiEndpoint(h) || h.JwtAuth? || h.Bodies? || h.Token?
  }

  /** A property every route of a table has, every handler of its chain has. */
  lemma {:induction false} MatchingKeeps(routes: seq<Route>, verb: Verb, path: string, from: nat, P: Handler -> bool)
    requires from <= |routes|
    requires forall k :: from <= k < |routes| ==> P(routes[k].handler)
    ensures forall h :: h in MatchingFrom(routes, verb, path, from) ==> P(h)
    decreases |routes| - from
  {
    if from < |routes| {
      MatchingKeeps(routes, verb, path, from + 1, P);
    }
  }

  /** A handler of a three-part chain that is in neither of the first two parts is in the third. */
  lemma InLast(first: seq<Handler>, second: seq<Handler>, third: seq<Handler>, h: Handler)
    requires h in first + second + third && h !in first && h !in second
    ensures h in third
  {
  }

  /** A handler of the last part of a three-part chain is in the chain. */
  lemma InThird(first: seq<Handler>, second: seq<Handler>, third: seq<Handler>, h: Handler)
    requires h in third
    ensures h in first + second + third
  {
  }

  /** A handler of the middle part of a three-part chain is in the chain. */
  lemma InMiddleChain(first: seq<Handler>, second: seq<Handler>, third: seq<Handler>, h: Handler)
    requires h in second
    ensures h in first + second + third
  {
  }

  /** A handler of a three-part chain that is in neither the first nor the last part is in the middle one. */
  lemma InMiddle(first: seq<Handler>, second: seq<Handler>, third: seq<Handler>, h: Handler)
    requires h in first + second + third && h !in first && h !in third
    ensures h in second
  {
  }

  /** What runs in an earlier part of a chain runs before what runs in a later one. */
  lemma PrecedesInChain(first: seq<Handler>, second: seq<Handler>, third: seq<Handler>, a: Handler, b: Handler)
    requires a in first && (b in second || b in third)
    ensures Precedes(first + second + third, a, b)
  {
    PrecedesAcross(first, second + third, a, b);
    assert first + second + third == first + (second + third);
  }

  /** What heads the last part runs before the rest of that part. */
  lemma PrecedesInLast(first: seq<Handler>, second: seq<Handler>, rest: seq<Handler>, a: Handler, b: Handler)
    requires b in rest
    ensures Precedes(first + second + ([a] + rest), a, b)
  {
    PrecedesAcross(first + second + [a], rest, a, b);
    assert first + second + ([a] + rest) == first + second + [a] + rest;
  }

  /** The filters contribute filters only. */
  lemma FilterHandlers(verb: Verb, path: string)
    ensures forall h :: h in Matching(Filters, verb, path) ==> IsFilter(h)
  {
    assert forall k :: 0 <= k < |Filters| ==> IsFilter(Filters[k].handler);
    MatchingKeeps(Filters, verb, path, 0, IsFilter);
  }

  /** The main router's endpoints contribute neither filters nor API handlers. */
  lemma EndpointHandlers(verb: Verb, path: string)
    ensures forall h :: h in Matching(Endpoints, verb, path) ==> IsMainEndpoint(h)
  {
    assert forall k :: 0 <= k < |Endpoints| ==> IsMainEndpoint(Endpoints[k].handler);
    MatchingKeeps(Endpoints, verb, path, 0, IsMainEndpoint);
  }

  /** The API router contributes API handlers only. */
  lemma ApiHandlers(verb: Verb, inner: string)
    ensures forall h :: h in Matching(ApiRoutes, verb, inner) ==> IsApiHandler(h)
  {
    assert forall k :: 0 <= k < |ApiRoutes| ==> IsApiHandler(ApiRoutes[k].handler);
    MatchingKeeps(ApiRoutes, verb, inner, 0, IsApiHandler);
  }

  /** The session guard's three routes. */
  lemma GuardRoutes()
    ensures forall r :: r in Filters && r.handler == RedirectAuth ==>
      r.verb.None? && r.pattern in [Exact("/"), Prefix("/wiki/"), Prefix("/action/")]
  {
  }

  /** The session guard runs exactly for the home page and the paths under `/wiki/` and `/action/`. */
  lemma FiltersGuard(verb: Verb, path: string)
    ensures RedirectAuth in Matching(Filters, verb, path) <==>
      path == "/" || StartsWith(path, "/wiki/") || StartsWith(path, "/action/")
  {
    MatchingHas(Filters, verb, path, RedirectAuth);
    GuardRoutes();
    if path == "/" {
      assert Filters[4] in Filters;
    }
    if StartsWith(path, "/wiki/") {
      assert Filters[5] in Filters;
    }
    if StartsWith(path, "/action/") {
      assert Filters[6] in Filters;
    }
  }

  /** The part of the chain after the main router's filters and endpoints. */
  function ApiChain(verb: Verb, path: string): seq<Handler> {
    if ApiPath(path).Some? then Matching(ApiRoutes, verb, ApiPath(path).value) else []
  }

  /** The bearer-token guard heads the API router's part of the chain. */
  lemma ApiChainStartsWithGuard(verb: Verb, inner: string)
    ensures Matching(ApiRoutes, verb, inner) == [JwtAuth] + MatchingFrom(ApiRoutes, verb, inner, 1)
  {
    assert RouteMatches(ApiRoutes[0], verb, inner);
  }

  /** A handler registered only on the API router is in the chain only through it. */
  lemma InApiChain(verb: Verb, path: string, h: Handler)
    requires h in Chain(verb, path) && (IsApiEndpoint(h) || h == Token)
    ensures ApiPath(path).Some? && h in ApiChain(verb, path)
  {
    FilterHandlers(verb, path);
    EndpointHandlers(verb, path);
    InLast(Matching(Filters, verb, path), Matching(Endpoints, verb, path), ApiChain(verb, path), h);
  }

  /** Exactly the home page and the paths under `/wiki/` and `/action/` go through the redirect-to-login guard. */
  lemma SessionGuardedPaths(verb: Verb, path: string)
    ensures RedirectAuth in Chain(verb, path) <==>
      path == "/" || StartsWith(path, "/wiki/") || StartsWith(path, "/action/")
  {
    FiltersGuard(verb, path);
    EndpointHandlers(verb, path);
    if ApiPath(path).Some? {
      ApiHandlers(verb, ApiPath(path).value);
    }
  }

  /** The interactive endpoints are registered on the guarded paths only. */
  lemma InteractiveRoutesGuarded(r: Route, path: string)
    requires r in Endpoints && IsInteractive(r.handler) && PatternMatches(r.pattern, path)
    ensures path == "/" || StartsWith(path, "/wiki/") || StartsWith(path, "/action/")
  {
    if r.pattern.Exact? && r.pattern.path != "/" {
      assert r.pattern.path[..8] == "/action/";
    }
  }

  /** An interactive endpoint is reached only on a guarded path. */
  lemma EndpointsOnGuardedPaths(verb: Verb, path: string, h: Handler)
    requires IsInteractive(h) && h in Matching(Endpoints, verb, path)
    ensures path == "/" || StartsWith(path, "/wiki/") || StartsWith(path, "/action/")
  {
    MatchingHas(Endpoints, verb, path, h);
    var r :| r in Endpoints && r.handler == h && RouteMatches(r, verb, path);
    InteractiveRoutesGuarded(r, path);
  }

  /** Every interactive endpoint a request reaches is preceded by the session guard. */
  lemma InteractiveEndpointsNeedSession(verb: Verb, path: string, h: Handler)
    requires IsInteractive(h) && h in Chain(verb, path)
    ensures Precedes(Chain(verb, path), RedirectAuth, h)
  {
    FilterHandlers(verb, path);
    if ApiPath(path).Some? {
      ApiHandlers(verb, ApiPath(path).value);
    }
    InMiddle(Matching(Filters, verb, path), Matching(Endpoints, verb, path), ApiChain(verb, path), h);
    EndpointsOnGuardedPaths(verb, path, h);
    FiltersGuard(verb, path);
    PrecedesInChain(Matching(Filters, verb, path), Matching(Endpoints, verb, path), ApiChain(verb, path), RedirectAuth, h);
  }

  /** The login page's route and the login form's route. */
  lemma LoginRoutes()
    ensures Endpoints[6] == Route(Some(Get), Exact("/login"), Login)
    ensures Endpoints[7] == Route(Some(Post), Exact("/login-auth"), FormLogin)
  {
  }

  /** The login paths are outside the session guard's paths. */
  lemma LoginPathsUnguarded(path: string)
    requires path == "/login" || path == "/login-auth"
    ensures !(path == "/" || StartsWith(path, "/wiki/") || StartsWith(path, "/action/"))
  {
    assert path[1] == 'l';
    assert "/wiki/"[1] == 'w' && "/action/"[1] == 'a';
  }

  /** The login page and the login form's target are reachable without a session. */
  lemma LoginIsOpen(verb: Verb, path: string)
    requires (verb == Get && path == "/login") || (verb == Post && path == "/login-auth")
    ensures RedirectAuth !in Chain(verb, path)
    ensures (if verb == Get then Login else FormLogin) in Chain(verb, path)
  {
    SessionGuardedPaths(verb, path);
    LoginPathsUnguarded(path);
    LoginRoutes();
    var k := if verb == Get then 6 else 7;
    RouteReached(Endpoints, k, verb, path);
    InMiddleChain(Matching(Filters, verb, path), Matching(Endpoints, verb, path), ApiChain(verb, path), Endpoints[k].handler);
  }

  /** The API endpoints are registered under `/pages`, the token endpoint on `/token`. */
  lemma ApiRoutePatterns()
    ensures forall k :: 0 <= k < |ApiRoutes| && IsApiEndpoint(ApiRoutes[k].handler) ==>
      ApiRoutes[k].pattern == Exact("/pages") || ApiRoutes[k].pattern == WithParam("/pages/")
    ensures forall k :: 0 <= k < |ApiRoutes| && ApiRoutes[k].handler == Token ==> ApiRoutes[k].pattern == Exact("/token")
  {
  }

  /** A path matched by a `/pages` pattern starts with `/pages`. */
  lemma PagesPatternPaths(pattern: Pattern, inner: string)
    requires pattern == Exact("/pages") || pattern == WithParam("/pages/")
    requires PatternMatches(pattern, inner)
    ensures StartsWith(inner, "/pages")
  {
  }

  /** Where the API router's endpoints sit, relative to its mount point. */
  lemma ApiEndpointPaths(verb: Verb, inner: string, h: Handler)
    requires h in Matching(ApiRoutes, verb, inner)
    ensures IsApiEndpoint(h) ==> StartsWith(inner, "/pages")
    ensures h == Token ==> inner == "/token"
  {
    MatchingFromHas(ApiRoutes, verb, inner, 0, h);
    var k :| 0 <= k < |ApiRoutes| && ApiRoutes[k].handler == h && RouteMatches(ApiRoutes[k], verb, inner);
    ApiRoutePatterns();
    if IsApiEndpoint(h) {
      PagesPatternPaths(ApiRoutes[k].pattern, inner);
    }
  }

  /** Paths under `/api/` are outside the session guard's paths. */
  lemma ApiPathsUnguarded(path: string)
    requires StartsWith(path, "/api/")
    ensures !(path == "/" || StartsWith(path, "/wiki/") || StartsWith(path, "/action/"))
  {
    assert path[..5][1] == 'a';
    assert path[1] == 'a';
    assert "/wiki/"[1] == 'w' && "/action/"[1] == 'a' && "/action/"[2] == 'c';
    assert path[..5][2] == 'p';
  }

  /** Below the mount point, `/pages` paths are checked for a token and `/token` is the token path. */
  lemma MountedPaths(path: string, inner: string)
    requires path == ApiMount + inner
    ensures StartsWith(inner, "/pages") ==> JwtEnforces(path)
    ensures inner == "/token" ==> path == TokenPath && !JwtEnforces(path)
  {
    if StartsWith(inner, "/pages") {
      assert path[5] == inner[1] == 'p';
      assert TokenPath[5] == 't';
    }
  }

  /** The bearer-token guard runs before every other handler of the API router. */
  lemma GuardPrecedesApi(verb: Verb, path: string, h: Handler)
    requires ApiPath(path).Some? && h in ApiChain(verb, path) && h != JwtAuth
    ensures Precedes(Chain(verb, path), JwtAuth, h)
  {
    var inner := ApiPath(path).value;
    ApiChainStartsWithGuard(verb, inner);
    var rest := MatchingFrom(ApiRoutes, verb, inner, 1);
    assert ApiChain(verb, path) == [JwtAuth] + rest;
    PrecedesInLast(Matching(Filters, verb, path), Matching(Endpoints, verb, path), rest, JwtAuth, h);
  }

  /**
   * Every API endpoint a request reaches is preceded by the bearer-token
   * guard, on a path where the guard demands a token; the token endpoint is
   * the one the guard lets through.
   */
  lemma ApiEndpointsNeedToken(verb: Verb, path: string, h: Handler)
    requires (IsApiEndpoint(h) || h == Token) && h in Chain(verb, path)
    ensures Precedes(Chain(verb, path), JwtAuth, h)
    ensures IsApiEndpoint(h) ==> JwtEnforces(path)
    ensures h == Token ==> path == TokenPath && !JwtEnforces(path)
  {
    InApiChain(verb, path, h);
    GuardPrecedesApi(verb, path, h);
    var inner := ApiPath(path).value;
    ApiEndpointPaths(verb, inner, h);
    MountedPaths(path, inner);
  }

  /** The API has no session guard, and every request under it passes the bearer-token guard. */
  lemma ApiPathsUseTokens(verb: Verb, path: string)
    requires StartsWith(path, "/api/")
    ensures RedirectAuth !in Chain(verb, path)
    ensures JwtAuth in Chain(verb, path)
  {
    SessionGuardedPaths(verb, path);
    ApiPathsUnguarded(path);
    ApiChainStartsWithGuard(verb, ApiPath(path).value);
    InThird(Matching(Filters, verb, path), Matching(Endpoints, verb, path), ApiChain(verb, path), JwtAuth);
  }
}
