/**
 * The two Express routers of the API: each route is a method, a path
 * pattern, a guard chain and a handler. A request goes to the first route
 * whose method and pattern match; its guards run in order and the first
 * one that denies ends the request. Paths are given relative to the
 * router's mount point (`/api/needs`, `/api/basket`), split at `/`.
 */
module ApiRoutes {
  import opened Common
  import opened Models
  import opened AuthMiddleware
  import AuthController

  datatype HttpMethod = GET | POST | PUT | DELETE

  /** A literal path segment, or a `:name` parameter. */
  datatype Segment = Lit(text: string) | Param(name: string)

  datatype Guard = RequireAuth | RequireManager | RequireHelper

  datatype Handler =
    | GetAllNeeds | SearchNeeds | GetNeedsByPriority | GetNeedsByCategory | GetNeedById
    | CreateNeed | UpdateNeed | DeleteNeed
    | GetBasket | AddToBasket | UpdateBasketItem | RemoveFromBasket | Checkout

  datatype Route = Route(verb: HttpMethod, pattern: seq<Segment>, guards: seq<Guard>, handler: Handler)

  /** What became of a request. */
  datatype Outcome = NoRoute | Denied(status: int, error: string) | Dispatched(handler: Handler)

  function Check(g: Guard, session: Session): Verdict
  {
    match g
    case RequireAuth => Authenticate(session)
    case RequireManager => ManagerOnly(session)
    case RequireHelper => HelperOnly(session)
  }

  /** A guard chain: the request goes on only if every guard lets it
      through, and otherwise ends with the first refusal. */
  function RunGuards(guards: seq<Guard>, session: Session): (v: Verdict)
    ensures v.Next? <==> forall i :: 0 <= i < |guards| ==> Check(guards[i], session).Next?
    ensures v.Deny? ==> exists i :: 0 <= i < |guards| && v == Check(guards[i], session)
                                    && forall j :: 0 <= j < i ==> Check(guards[j], session).Next?
  {
    if guards == [] then Next
    else if Check(guards[0], session).Deny? then Check(guards[0], session)
    else
      var v := RunGuards(guards[1..], session);
      assert forall i :: 1 <= i < |guards| ==> guards[i] == guards[1..][i - 1];
      v
  }

  /** Express matches a literal segment exactly and a parameter against
      any non-empty segment. */
  predicate SegmentMatches(p: Segment, s: string)
  {
    match p
    case Lit(t) => s == t
    case Param(_) => s != ""
  }

  predicate RouteMatches(r: Route, verb: HttpMethod, path: seq<string>)
  {
    && r.verb == verb
    && |r.pattern| == |path|
    && forall i :: 0 <= i < |path| ==> SegmentMatches(r.pattern[i], path[i])
  }

  /** The first route of the table that matches, in declaration order. */
  function FirstMatch(table: seq<Route>, verb: HttpMethod, path: seq<string>): Option<nat>
  {
    IndexWhere(table, (r: Route) => RouteMatches(r, verb, path))
  }

  function Dispatch(table: seq<Route>, verb: HttpMethod, path: seq<string>, session: Session): (o: Outcome)
    ensures o.NoRoute? <==> forall k :: 0 <= k < |table| ==> !RouteMatches(table[k], verb, path)
    ensures o.Dispatched? ==> exists k :: 0 <= k < |table| && RouteMatches(table[k], verb, path)
                                          && table[k].handler == o.handler
                                          && RunGuards(table[k].guards, session).Next?
  {
    match FirstMatch(table, verb, path)
    case None => NoRoute
    case Some(k) =>
      var v := RunGuards(table[k].guards, session);
      if v.Next? then Dispatched(table[k].handler) else Denied(v.status, v.error)
  }

  const AUTH_ONLY: seq<Guard> := [RequireAuth]
  const MANAGER_CHAIN: seq<Guard> := [RequireAuth, RequireManager]
  const HELPER_CHAIN: seq<Guard> := [RequireAuth, RequireHelper]

  /** The needs router, in declaration order. */
  const NEED_ROUTES: seq<Route> := [
    Route(GET, [], AUTH_ONLY, GetAllNeeds),
    Route(GET, [Lit("search")], AUTH_ONLY, SearchNeeds),
    Route(GET, [Lit("priority")], AUTH_ONLY, GetNeedsByPriority),
    Route(GET, [Lit("category"), Param("category")], AUTH_ONLY, GetNeedsByCategory),
    Route(GET, [Param("id")], AUTH_ONLY, GetNeedById),
    Route(POST, [], MANAGER_CHAIN, CreateNeed),
    Route(PUT, [Param("id")], MANAGER_CHAIN, UpdateNeed),
    Route(DELETE, [Param("id")], MANAGER_CHAIN, DeleteNeed)
  ]

  /** The basket router, in declaration order. */
  const BASKET_ROUTES: seq<Route> := [
    Route(GET, [], HELPER_CHAIN, GetBasket),
    Route(POST, [], HELPER_CHAIN, AddToBasket),
    Route(PUT, [Param("id")], HELPER_CHAIN, UpdateBasketItem),
    Route(DELETE, [Param("id")], HELPER_CHAIN, RemoveFromBasket),
    Route(POST, [Lit("checkout")], HELPER_CHAIN, Checkout)
  ]

  predicate ChangesNeeds(h: Handler)
  {
    h == CreateNeed || h == UpdateNeed || h == DeleteNeed
  }

  /** Reads are guarded by authentication alone; every write by
      authentication and then the manager check. */
  lemma NeedRouteGuards(k: nat)
    requires k < |NEED_ROUTES|
    ensures NEED_ROUTES[k].verb == GET ==> NEED_ROUTES[k].guards == AUTH_ONLY
    ensures NEED_ROUTES[k].verb != GET ==> NEED_ROUTES[k].guards == MANAGER_CHAIN
    ensures ChangesNeeds(NEED_ROUTES[k].handler) <==> NEED_ROUTES[k].verb != GET
  {
    assert k < 8;
    if k == 0 {} else if k == 1 {} else if k == 2 {} else if k == 3 {}
    else if k == 4 {} else if k == 5 {} else if k == 6 {} else {}
  }

  lemma BasketRouteGuards(k: nat)
    requires k < |BASKET_ROUTES|
    ensures BASKET_ROUTES[k].guards == HELPER_CHAIN
    ensures BASKET_ROUTES[k].handler == Checkout <==> BASKET_ROUTES[k].verb == POST && BASKET_ROUTES[k].pattern == [Lit("checkout")]
  {
    assert k < 5;
    if k == 0 {} else if k == 1 {} else if k == 2 {} else if k == 3 {} else {}
  }

  /** Any signed-in user, helper or manager, can read needs. */
  lemma NeedReadsOpenToSignedIn(path: seq<string>, session: Session)
    requires session.SignedIn?
    requires !Dispatch(NEED_ROUTES, GET, path, session).NoRoute?
    ensures Dispatch(NEED_ROUTES, GET, path, session).Dispatched?
  {
    var k := FirstMatch(NEED_ROUTES, GET, path).value;
    NeedRouteGuards(k);
  }

  /** A request that reaches createNeed, updateNeed or deleteNeed carries a
      manager's session: a helper never gets there. */
  lemma OnlyManagersChangeNeeds(verb: HttpMethod, path: seq<string>, session: Session)
    ensures var o := Dispatch(NEED_ROUTES, verb, path, session);
      o.Dispatched? && ChangesNeeds(o.handler) ==> session.SignedIn? && session.user.role == MANAGER
  {
    var m := FirstMatch(NEED_ROUTES, verb, path);
    if m.Some? {
      NeedRouteGuards(m.value);
      assert Check(MANAGER_CHAIN[1], session) == ManagerOnly(session);
    }
  }

  /** On the write routes an anonymous caller is refused with 401 and a
      helper with 403. */
  lemma NeedWritesRefused(verb: HttpMethod, path: seq<string>, session: Session)
    requires verb != GET
    requires !Dispatch(NEED_ROUTES, verb, path, session).NoRoute?
    ensures session.Anonymous? ==>
              Dispatch(NEED_ROUTES, verb, path, session) == Denied(UNAUTHORIZED, "Not authenticated")
    ensures session.SignedIn? && session.user.role == HELPER ==>
              Dispatch(NEED_ROUTES, verb, path, session) == Denied(FORBIDDEN, "Access denied. Manager only.")
  {
    var k := FirstMatch(NEED_ROUTES, verb, path).value;
    assert RouteMatches(NEED_ROUTES[k], verb, path);
    NeedRouteGuards(k);
    assert NEED_ROUTES[k].guards == MANAGER_CHAIN;
    assert MANAGER_CHAIN[1..] == [RequireManager];
    assert RunGuards(MANAGER_CHAIN, session) == if Authenticate(session).Deny? then Authenticate(session)
                                                 else ManagerOnly(session);
  }

  /** `/search`, `/priority` and `/category/:c` are declared before `/:id`
      and so are never read as a need id. */
  lemma NamedPathsNotIds(session: Session, c: string)
    requires session.SignedIn? && c != ""
    ensures Dispatch(NEED_ROUTES, GET, ["search"], session) == Dispatched(SearchNeeds)
    ensures Dispatch(NEED_ROUTES, GET, ["priority"], session) == Dispatched(GetNeedsByPriority)
    ensures Dispatch(NEED_ROUTES, GET, ["category", c], session) == Dispatched(GetNeedsByCategory)
  {
    SearchPathRoute(session);
    PriorityPathRoute(session);
    CategoryPathRoute(session, c);
  }

  lemma SearchPathRoute(session: Session)
    requires session.SignedIn?
    ensures Dispatch(NEED_ROUTES, GET, ["search"], session) == Dispatched(SearchNeeds)
  {
    assert !RouteMatches(NEED_ROUTES[0], GET, ["search"]);
    assert RouteMatches(NEED_ROUTES[1], GET, ["search"]);
    assert FirstMatch(NEED_ROUTES, GET, ["search"]) == Some(1);
  }

  lemma PriorityPathRoute(session: Session)
    requires session.SignedIn?
    ensures Dispatch(NEED_ROUTES, GET, ["priority"], session) == Dispatched(GetNeedsByPriority)
  {
    assert !RouteMatches(NEED_ROUTES[0], GET, ["priority"]);
    assert "priority"[0] != "search"[0];
    assert !SegmentMatches(NEED_ROUTES[1].pattern[0], ["priority"][0]);
    assert RouteMatches(NEED_ROUTES[2], GET, ["priority"]);
    assert FirstMatch(NEED_ROUTES, GET, ["priority"]) == Some(2);
  }

  lemma CategoryPathRoute(session: Session, c: string)
    requires session.SignedIn? && c != ""
    ensures Dispatch(NEED_ROUTES, GET, ["category", c], session) == Dispatched(GetNeedsByCategory)
  {
    assert !RouteMatches(NEED_ROUTES[0], GET, ["category", c]);
    assert !RouteMatches(NEED_ROUTES[1], GET, ["category", c]);
    assert !RouteMatches(NEED_ROUTES[2], GET, ["category", c]);
    assert RouteMatches(NEED_ROUTES[3], GET, ["category", c]);
    assert FirstMatch(NEED_ROUTES, GET, ["category", c]) == Some(3);
  }

  lemma GetNeedByIdPaths(path: seq<string>, session: Session)
    ensures Dispatch(NEED_ROUTES, GET, path, session) == Dispatched(GetNeedById) ==>
              |path| == 1 && path[0] != "search" && path[0] != "priority" && path[0] != ""
  {
    var m := FirstMatch(NEED_ROUTES, GET, path);
    if m.Some? && m.value == 4 {
      assert !RouteMatches(NEED_ROUTES[1], GET, path);
      assert !RouteMatches(NEED_ROUTES[2], GET, path);
    }
  }

  /** Every basket route: an anonymous caller gets 401 before any role
      check, and a manager gets 403, checkout included. */
  lemma BasketRefusals(verb: HttpMethod, path: seq<string>, session: Session)
    requires !Dispatch(BASKET_ROUTES, verb, path, session).NoRoute?
    ensures session.Anonymous? ==>
              Dispatch(BASKET_ROUTES, verb, path, session) == Denied(UNAUTHORIZED, "Not authenticated")
    ensures session.SignedIn? && session.user.role == MANAGER ==>
              Dispatch(BASKET_ROUTES, verb, path, session) == Denied(FORBIDDEN, "Access denied. Helper only.")
    ensures session.SignedIn? && session.user.role == HELPER ==>
              Dispatch(BASKET_ROUTES, verb, path, session).Dispatched?
  {
    var k := FirstMatch(BASKET_ROUTES, verb, path).value;
    BasketRouteGuards(k);
    assert HELPER_CHAIN[1..] == [RequireHelper];
  }

  /** Checkout is reached only by `POST /checkout`; `PUT` and `DELETE` on
      `/checkout` go to the item handlers instead. */
  lemma CheckoutOnlyByPost(verb: HttpMethod, path: seq<string>, session: Session)
    ensures Dispatch(BASKET_ROUTES, verb, path, session) == Dispatched(Checkout) ==>
              verb == POST && path == ["checkout"]
  {
    var m := FirstMatch(BASKET_ROUTES, verb, path);
    if m.Some? {
      BasketRouteGuards(m.value);
      if BASKET_ROUTES[m.value].handler == Checkout {
        assert path == [path[0]];
      }
    }
  }

  /** A session made by logging in as `u` may change needs exactly when
      `u` is `admin`, and may use the basket exactly when it is not. */
  lemma LoginRoleDecidesAccess(u: string)
    ensures var s := SignedIn(SessionUser(u, AuthController.RoleFor(u)));
      && (ManagerOnly(s).Next? <==> u == "admin")
      && (HelperOnly(s).Next? <==> u != "admin")
  {
  }
}
