/**
 * The middleware followed by a handler, as gin runs a route: the handler runs unless the
 * middleware aborted. internal/api/router.go registers the order routes without any middleware,
 * so the current handlers are also modelled running on a context nobody has authenticated.
 */
module Pipeline {
  import opened Base
  import opened Jwt
  import opened Backend
  import opened Gin
  import Middleware
  import AuthHandlers
  import OrderHandlers
  import DishHandlers

  /** A route of the current handlers, with what gin's binding makes of the body where one is read. */
  datatype Route =
    | CreateOrder(decoded: Outcome<Option<seq<Int64>>>, validationError: string)
    | GetOrder
    | UpdateOrder(patch: Outcome<OrderHandlers.OrderPatch>)
    | DeleteOrder
    | GetUserOrders
    | GetDish
    | GetAllDishes

  /** What the route's handler does, given the context's keys and the path's "id". */
  function HandlerEffect(route: Route, keys: map<string, Value>, h: Handler, idParam: string): (e: Effect)
    ensures |e.writes| == 1
  {
    match route
    case CreateOrder(decoded, validationError) =>
      OrderHandlers.CreateOrderEffect(keys, h.orderClient, OrderHandlers.BindCreateRequest(decoded, validationError))
    case GetOrder => OrderHandlers.GetOrderEffect(keys, h.orderClient, idParam)
    case UpdateOrder(patch) => OrderHandlers.UpdateOrderEffect(keys, h.orderClient, idParam, patch)
    case DeleteOrder => OrderHandlers.DeleteOrderEffect(keys, h.orderClient, idParam)
    case GetUserOrders => OrderHandlers.GetUserOrdersEffect(keys, h.orderClient)
    case GetDish => DishHandlers.GetDishEffect(h.menuClient, idParam)
    case GetAllDishes => DishHandlers.GetAllDishesEffect(h.menuClient)
  }

  /** The context after the middleware and, when it let the request through, the handler. */
  function Served(s: State, header: string, lib: Library, secret: string, route: Route, h: Handler, idParam: string): State
  {
    var afterAuth := Middleware.Applied(s, Middleware.Decide(header, lib, secret));
    if afterAuth.aborted then afterAuth
    else afterAuth.AfterEffect(HandlerEffect(route, afterAuth.keys, h, idParam))
  }

  method Dispatch(c: Context, h: Handler, route: Route)
    modifies c
    ensures c.Snapshot() == old(c.Snapshot()).AfterEffect(HandlerEffect(route, old(c.keys), h, c.Param("id")))
  {
    match route
    case CreateOrder(decoded, validationError) => OrderHandlers.CreateOrder(c, h, decoded, validationError);
    case GetOrder => OrderHandlers.GetOrder(c, h);
    case UpdateOrder(patch) => OrderHandlers.UpdateOrder(c, h, patch);
    case DeleteOrder => OrderHandlers.DeleteOrder(c, h);
    case GetUserOrders => OrderHandlers.GetUserOrders(c, h);
    case GetDish => DishHandlers.GetDish(c, h);
    case GetAllDishes => DishHandlers.GetAllDishes(c, h);
  }

  /** The middleware, then the handler unless the request was aborted. */
  method Serve(c: Context, lib: Library, secret: string, h: Handler, route: Route)
    requires !c.aborted
    modifies c
    ensures c.Snapshot() == Served(old(c.Snapshot()), c.header, lib, secret, route, h, c.Param("id"))
  {
    Middleware.AuthMiddleware(c, lib, secret);
    if c.aborted {
      return;
    }
    Dispatch(c, h, route);
  }

  /** A rejected request gets exactly one 401 and nothing else: no handler runs, no backend is called, no body is read. */
  lemma RejectionStopsEverything(s: State, header: string, lib: Library, secret: string, route: Route, h: Handler, idParam: string)
    requires !s.aborted
    requires Middleware.Decide(header, lib, secret).Reject?
    ensures var t := Served(s, header, lib, secret, route, h, idParam);
            && t.writes == s.writes + [Response(StatusUnauthorized, ErrorJson(Middleware.Decide(header, lib, secret).message))]
            && t.sent == s.sent && t.bodyRead == s.bodyRead && t.aborted
  {
  }

  /**
   * An admitted request with a numeric "id" claim creates orders for that user only, and lists
   * that user's orders only.
   */
  lemma AdmittedIdBecomesOwner(s: State, header: string, lib: Library, secret: string, h: Handler, idParam: string,
                               decoded: Outcome<Option<seq<Int64>>>, validationError: string, id: UInt64)
    requires !s.aborted
    requires Middleware.Decide(header, lib, secret).Admit?
    requires var claims := Middleware.Decide(header, lib, secret).claims;
             "id" in claims.entries && claims.entries["id"] == Number(id)
    ensures var t := Served(s, header, lib, secret, Route.CreateOrder(decoded, validationError), h, idParam);
            forall call :: call in t.sent[|s.sent|..] ==> call.CreateOrder? && call.create.userId == id
    ensures Served(s, header, lib, secret, Route.GetUserOrders, h, idParam).sent == s.sent + [Call.GetUserOrders(id)]
  {
    var afterAuth := Middleware.Applied(s, Middleware.Decide(header, lib, secret));
    assert AuthHandlers.ClaimsIdentify(afterAuth.keys, id);
    var t := Served(s, header, lib, secret, Route.CreateOrder(decoded, validationError), h, idParam);
    var e := HandlerEffect(Route.CreateOrder(decoded, validationError), afterAuth.keys, h, idParam);
    assert t.sent[|s.sent|..] == e.sent;
    forall call | call in e.sent
      ensures call.CreateOrder? && call.create.userId == id
    {
      assert AuthHandlers.ClaimsIdentify(afterAuth.keys, call.create.userId);
    }
  }

  /**
   * With no middleware in front, as the router registers them, the context holds no claims: every
   * order handler answers a single 401 and calls no backend.
   */
  lemma UnauthenticatedOrderRoutes(h: Handler, idParam: string, route: Route)
    requires route.CreateOrder? || route.GetOrder? || route.UpdateOrder? || route.DeleteOrder? || route.GetUserOrders?
    ensures var e := HandlerEffect(route, map[], h, idParam);
            && e.sent == [] && e.writes[0].status == StatusUnauthorized
            && (route.GetUserOrders? ==> e.writes[0].body == ErrorJson(AuthHandlers.ClaimsNotFound))
            && (!route.GetUserOrders? ==> e.writes[0].body == ErrorJson(AuthHandlers.AuthRequired))
  {
    var keys: map<string, Value> := map[];
    assert forall id: UInt64 :: !AuthHandlers.ClaimsIdentify(keys, id);
    assert AuthHandlers.GetUserIdReply(keys) == AuthHandlers.Unauthorized(AuthHandlers.AuthRequired);
    match route
    case CreateOrder(decoded, validationError) =>
      OrderHandlers.NoIdentityNoCalls(keys, h.orderClient, idParam, OrderHandlers.BindCreateRequest(decoded, validationError), Err(""));
    case UpdateOrder(patch) =>
      OrderHandlers.NoIdentityNoCalls(keys, h.orderClient, idParam, Err(""), patch);
    case _ =>
      OrderHandlers.NoIdentityNoCalls(keys, h.orderClient, idParam, Err(""), Err(""));
  }
}
