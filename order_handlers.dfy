/**
 * internal/api/order_handlers.go: the five order endpoints. Every one of them answers with exactly
 * one response. The owner of a new order is the user named by the token, never the client; an
 * order is read, changed or deleted only after the backend has shown that it belongs to that user.
 */
module OrderHandlers {
  import opened Base
  import opened Strconv
  import opened Backend
  import opened Gin
  import opened Responses
  import opened AuthHandlers

  const InvalidOrderId: string := "Invalid order ID"
  const OrderNotFound: string := "Order not found"
  const OrderDeleted: string := "Order deleted successfully"

  /**
   * orderRequest: both fields optional. None is a field absent from the body (a nil slice, a nil
   * pointer); Some is a field present, even when empty.
   */
  datatype OrderPatch = OrderPatch(items: Option<seq<Int64>>, status: Option<string>)

  /**
   * CreateOrder's body, after decoding (`decoded`: the items field, None when absent) and the
   * `required,min=1` validation, whose own error text is `validationError`.
   */
  function BindCreateRequest(decoded: Outcome<Option<seq<Int64>>>, validationError: string): (r: Outcome<seq<Int64>>)
    ensures r.Ok? <==> decoded.Ok? && decoded.value.Some? && |decoded.value.value| >= 1
    ensures r.Ok? ==> decoded == Ok(Some(r.value))
    ensures r.Err? && decoded.Err? ==> r.msg == decoded.msg
  {
    match decoded
    case Err(msg) => Err(msg)
    case Ok(None) => Err(validationError)
    case Ok(Some(items)) => if |items| == 0 then Err(validationError) else Ok(items)
  }

  /** The request updateOrder builds: the id, and each field of the patch that is present. */
  function UpdateRequestOf(orderId: UInt64, patch: OrderPatch): (req: UpdateOrderRequest)
    ensures req.id == orderId && req.userId == 0
    ensures patch.items.Some? ==> req.items == patch.items.value
    ensures patch.items.None? ==> req.items == []
    ensures patch.status.Some? ==> req.status == patch.status.value
    ensures patch.status.None? ==> req.status == ""
  {
    UpdateOrderRequest(orderId,
                       0,
                       if patch.items.Some? then patch.items.value else [],
                       if patch.status.Some? then patch.status.value else "")
  }

  /** A patch with empty fields made absent: what the backend can tell of a patch. */
  function Normalized(patch: OrderPatch): OrderPatch
  {
    OrderPatch(if patch.items == Some([]) then None else patch.items,
               if patch.status == Some("") then None else patch.status)
  }

  function InternalError<T>(msg: string): Reply<T>
  {
    Respond(Response(StatusInternalServerError, ErrorJson(msg)))
  }

  /** createOrder: sends CreateOrder for this user and these items; 500 with the backend's error. */
  function CreateStep(orders: OrderService, userId: UInt64, items: seq<Int64>): (s: Step<Order>)
    ensures s.sent == [Call.CreateOrder(CreateOrderRequest(userId, items))] && !s.readsBody
    ensures s.reply.Proceed? <==> orders.createOrder(CreateOrderRequest(userId, items)).Ok?
    ensures s.reply.Proceed? ==> s.reply.value == orders.createOrder(CreateOrderRequest(userId, items)).value
    ensures s.reply.Respond? ==> s.reply.response.status == StatusInternalServerError
  {
    var req := CreateOrderRequest(userId, items);
    match orders.createOrder(req)
    case Err(msg) => Step(InternalError(msg), [Call.CreateOrder(req)], false)
    case Ok(order) => Step(Proceed(order), [Call.CreateOrder(req)], false)
  }

  /** updateOrder: sends UpdateRequestOf(orderId, patch); 500 with the backend's error. */
  function UpdateStep(orders: OrderService, orderId: UInt64, patch: OrderPatch): (s: Step<Order>)
    ensures s.sent == [Call.UpdateOrder(UpdateRequestOf(orderId, patch))] && !s.readsBody
    ensures s.reply.Proceed? <==> orders.updateOrder(UpdateRequestOf(orderId, patch)).Ok?
    ensures s.reply.Proceed? ==> s.reply.value == orders.updateOrder(UpdateRequestOf(orderId, patch)).value
    ensures s.reply.Respond? ==>
              s.reply.response == Response(StatusInternalServerError, ErrorJson(orders.updateOrder(UpdateRequestOf(orderId, patch)).msg))
  {
    var req := UpdateRequestOf(orderId, patch);
    match orders.updateOrder(req)
    case Err(msg) => Step(InternalError(msg), [Call.UpdateOrder(req)], false)
    case Ok(order) => Step(Proceed(order), [Call.UpdateOrder(req)], false)
  }

  /** deleteOrder: proceeds only when the backend reports the order deleted; 500 on error, 404 when not deleted. */
  function DeleteStep(orders: OrderService, orderId: UInt64): (s: Step<()>)
    ensures s.sent == [Call.DeleteOrder(orderId)] && !s.readsBody
    ensures s.reply.Proceed? <==> orders.deleteOrder(orderId) == Ok(true)
    ensures orders.deleteOrder(orderId) == Ok(false) ==>
              s.reply == Respond(Response(StatusNotFound, MessageJson(OrderNotFound)))
    ensures orders.deleteOrder(orderId).Err? ==> s.reply == InternalError(orders.deleteOrder(orderId).msg)
  {
    match orders.deleteOrder(orderId)
    case Err(msg) => Step(InternalError(msg), [Call.DeleteOrder(orderId)], false)
    case Ok(deleted) =>
      if !deleted then Step(Respond(Response(StatusNotFound, MessageJson(OrderNotFound))), [Call.DeleteOrder(orderId)], false)
      else Step(Proceed(()), [Call.DeleteOrder(orderId)], false)
  }

  /** The order named by the path exists (per the backend) and belongs to the user the claims identify. */
  predicate OwnsOrder(keys: map<string, Value>, orders: OrderService, idParam: string)
  {
    && ParseUint64(idParam).Some?
    && orders.getOrder(ParseUint64(idParam).value).Ok?
    && ClaimsIdentify(keys, orders.getOrder(ParseUint64(idParam).value).value.userId)
  }

  /**
   * getValidatedOrder: identity (401), then the order id (400), then the lookup (404 on any
   * backend error), then ownership (403). Proceeds with the order exactly when the user owns it.
   */
  function GetValidatedOrderStep(keys: map<string, Value>, orders: OrderService, idParam: string): (s: Step<Order>)
    ensures s.reply.Proceed? <==> OwnsOrder(keys, orders, idParam)
    ensures s.reply.Proceed? ==> s.reply.value == orders.getOrder(ParseUint64(idParam).value).value
    ensures !s.readsBody
    ensures forall call :: call in s.sent ==> ParseUint64(idParam).Some? && call == Call.GetOrder(ParseUint64(idParam).value)
    ensures s.reply.Respond? ==>
              s.reply.response.status in {StatusUnauthorized, StatusBadRequest, StatusNotFound, StatusForbidden}
    // The four refusals, each checked only once the ones before it have passed.
    ensures GetUserIdReply(keys).Respond? ==> s == Step(Respond(GetUserIdReply(keys).response), [], false)
    ensures GetUserIdReply(keys).Proceed? && ParseUint64(idParam).None? ==>
              s == Step(Respond(Response(StatusBadRequest, ErrorJson(InvalidOrderId))), [], false)
    ensures GetUserIdReply(keys).Proceed? && ParseUint64(idParam).Some?
            && orders.getOrder(ParseUint64(idParam).value).Err? ==>
              s.reply == Respond(Response(StatusNotFound, ErrorJson(OrderNotFound)))
    ensures GetUserIdReply(keys).Proceed? && ParseUint64(idParam).Some?
            && orders.getOrder(ParseUint64(idParam).value).Ok?
            && orders.getOrder(ParseUint64(idParam).value).value.userId != GetUserIdReply(keys).value ==>
              s.reply == Respond(Response(StatusForbidden, ErrorJson(AccessDenied)))
  {
    match GetUserIdReply(keys)
    case Respond(r) => Step(Respond(r), [], false)
    case Proceed(userId) =>
      match ParseUint64(idParam)
      case None => Step(Respond(Response(StatusBadRequest, ErrorJson(InvalidOrderId))), [], false)
      case Some(orderId) =>
        match orders.getOrder(orderId)
        case Err(_) => Step(Respond(Response(StatusNotFound, ErrorJson(OrderNotFound))), [Call.GetOrder(orderId)], false)
        case Ok(order) =>
          if order.userId != userId then
            Step(Respond(Response(StatusForbidden, ErrorJson(AccessDenied))), [Call.GetOrder(orderId)], false)
          else
            Step(Proceed(order), [Call.GetOrder(orderId)], false)
  }

  /** CreateOrder: 201 with the new order; the owner is the token's user, the items those bound from the body. */
  function CreateOrderEffect(keys: map<string, Value>, orders: OrderService, bound: Outcome<seq<Int64>>): (e: Effect)
    ensures |e.writes| == 1
    ensures e.writes[0].status == StatusCreated <==>
              GetUserIdReply(keys).Proceed? && bound.Ok?
              && orders.createOrder(CreateOrderRequest(GetUserIdReply(keys).value, bound.value)).Ok?
    ensures forall call :: call in e.sent ==>
              call.CreateOrder? && ClaimsIdentify(keys, call.create.userId) && bound == Ok(call.create.items)
    ensures GetUserIdReply(keys).Proceed? && bound.Ok? ==>
              e.sent == [Call.CreateOrder(CreateOrderRequest(GetUserIdReply(keys).value, bound.value))]
    ensures e.writes[0].status == StatusCreated ==>
              e.writes[0].body
              == ToOrderResponse(orders.createOrder(CreateOrderRequest(GetUserIdReply(keys).value, bound.value)).value)
    ensures GetUserIdReply(keys).Proceed? && bound.Ok?
            && orders.createOrder(CreateOrderRequest(GetUserIdReply(keys).value, bound.value)).Err? ==>
              e.writes[0] == Response(StatusInternalServerError, ErrorJson(
                               orders.createOrder(CreateOrderRequest(GetUserIdReply(keys).value, bound.value)).msg))
    ensures GetUserIdReply(keys).Proceed? && bound.Err? ==>
              e == Effect([Response(StatusBadRequest, ErrorJson(bound.msg))], [], true)
  {
    match GetUserIdReply(keys)
    case Respond(r) => Effect([r], [], false)
    case Proceed(userId) =>
      match BindJsonReply(bound)
      case Respond(r) => Effect([r], [], true)
      case Proceed(items) =>
        var s := CreateStep(orders, userId, items);
        match s.reply
        case Respond(r) => Effect([r], s.sent, true)
        case Proceed(order) => Effect([Response(StatusCreated, ToOrderResponse(order))], s.sent, true)
  }

  /** GetOrder: 200 with the order, only to its owner. */
  function GetOrderEffect(keys: map<string, Value>, orders: OrderService, idParam: string): (e: Effect)
    ensures |e.writes| == 1 && !e.readsBody
    ensures e.writes[0].status == StatusOK <==> OwnsOrder(keys, orders, idParam)
    ensures OwnsOrder(keys, orders, idParam) ==>
              e.writes[0].body == ToOrderResponse(orders.getOrder(ParseUint64(idParam).value).value)
    ensures forall call :: call in e.sent ==> !call.IsMutation()
  {
    var s := GetValidatedOrderStep(keys, orders, idParam);
    match s.reply
    case Respond(r) => Effect([r], s.sent, false)
    case Proceed(order) => Effect([Response(StatusOK, ToOrderResponse(order))], s.sent, false)
  }

  /** UpdateOrder once getValidatedOrder has produced the caller's order: bind the patch, update, answer 200. */
  function UpdateOwnedEffect(orders: OrderService, order: Order, bound: Outcome<OrderPatch>): (e: Effect)
    ensures |e.writes| == 1 && e.readsBody
    ensures e.sent != [] <==> bound.Ok?
    ensures bound.Ok? ==> e.sent == [Call.UpdateOrder(UpdateRequestOf(order.id, bound.value))]
    ensures e.writes[0].status == StatusOK <==> bound.Ok? && orders.updateOrder(UpdateRequestOf(order.id, bound.value)).Ok?
    ensures bound.Err? ==> e.writes[0] == Response(StatusBadRequest, ErrorJson(bound.msg))
    ensures bound.Ok? && orders.updateOrder(UpdateRequestOf(order.id, bound.value)).Err? ==>
              e.writes[0] == Response(StatusInternalServerError, ErrorJson(orders.updateOrder(UpdateRequestOf(order.id, bound.value)).msg))
    ensures e.writes[0].status == StatusOK ==>
              e.writes[0].body == ToOrderResponse(orders.updateOrder(UpdateRequestOf(order.id, bound.value)).value)
  {
    match BindJsonReply(bound)
    case Respond(r) => Effect([r], [], true)
    case Proceed(patch) =>
      var s := UpdateStep(orders, order.id, patch);
      match s.reply
      case Respond(r) => Effect([r], s.sent, true)
      case Proceed(updated) => Effect([Response(StatusOK, ToOrderResponse(updated))], s.sent, true)
  }

  /** UpdateOrder: getValidatedOrder, then the owner's order is updated with the bound patch. */
  function UpdateOrderEffect(keys: map<string, Value>, orders: OrderService, idParam: string,
                             bound: Outcome<OrderPatch>): (e: Effect)
    ensures |e.writes| == 1
    ensures e.readsBody <==> OwnsOrder(keys, orders, idParam)
  {
    var v := GetValidatedOrderStep(keys, orders, idParam);
    match v.reply
    case Respond(r) => Effect([r], v.sent, false)
    case Proceed(order) =>
      var t := UpdateOwnedEffect(orders, order, bound);
      Effect(t.writes, v.sent + t.sent, t.readsBody)
  }

  /** DeleteOrder once getValidatedOrder has produced the caller's order: delete, answer 200. */
  function DeleteOwnedEffect(orders: OrderService, order: Order): (e: Effect)
    ensures |e.writes| == 1 && !e.readsBody && e.sent == [Call.DeleteOrder(order.id)]
    ensures e.writes[0].status == StatusOK <==> orders.deleteOrder(order.id) == Ok(true)
    ensures e.writes[0].status == StatusOK ==> e.writes[0].body == MessageJson(OrderDeleted)
  {
    var s := DeleteStep(orders, order.id);
    match s.reply
    case Respond(r) => Effect([r], s.sent, false)
    case Proceed(_) => Effect([Response(StatusOK, MessageJson(OrderDeleted))], s.sent, false)
  }

  /** DeleteOrder: getValidatedOrder, then the owner's order is deleted; 200 only when the backend confirms it. */
  function DeleteOrderEffect(keys: map<string, Value>, orders: OrderService, idParam: string): (e: Effect)
    ensures |e.writes| == 1 && !e.readsBody
    ensures e.writes[0].status == StatusOK <==>
              OwnsOrder(keys, orders, idParam)
              && orders.deleteOrder(orders.getOrder(ParseUint64(idParam).value).value.id) == Ok(true)
    ensures e.writes[0].status == StatusOK ==> e.writes[0].body == MessageJson(OrderDeleted)
    ensures forall call :: call in e.sent && call.IsMutation() ==>
              OwnsOrder(keys, orders, idParam)
              && call == Call.DeleteOrder(orders.getOrder(ParseUint64(idParam).value).value.id)
  {
    var v := GetValidatedOrderStep(keys, orders, idParam);
    match v.reply
    case Respond(r) => Effect([r], v.sent, false)
    case Proceed(order) =>
      var t := DeleteOwnedEffect(orders, order);
      Effect(t.writes, v.sent + t.sent, false)
  }

  /** GetUserOrders: the token's user's orders, each in its response shape and in backend order. */
  function GetUserOrdersEffect(keys: map<string, Value>, orders: OrderService): (e: Effect)
    ensures |e.writes| == 1 && !e.readsBody
    ensures GetUserIdFromToken(keys).Err? ==>
              e == Effect([Response(StatusUnauthorized, ErrorJson(GetUserIdFromToken(keys).msg))], [], false)
    ensures GetUserIdFromToken(keys).Ok? ==> e.sent == [Call.GetUserOrders(GetUserIdFromToken(keys).value)]
    ensures e.writes[0].status == StatusOK <==>
              GetUserIdFromToken(keys).Ok? && orders.getUserOrders(GetUserIdFromToken(keys).value).Ok?
    ensures GetUserIdFromToken(keys).Ok? && orders.getUserOrders(GetUserIdFromToken(keys).value).Err? ==>
              e.writes[0] == Response(StatusInternalServerError,
                                      ErrorJson(orders.getUserOrders(GetUserIdFromToken(keys).value).msg))
  {
    match GetUserIdFromToken(keys)
    case Err(msg) => Effect([Response(StatusUnauthorized, ErrorJson(msg))], [], false)
    case Ok(userId) =>
      match orders.getUserOrders(userId)
      case Err(msg) => Effect([Response(StatusInternalServerError, ErrorJson(msg))], [Call.GetUserOrders(userId)], false)
      case Ok(list) =>
        Effect([Response(StatusOK, JObj(map["orders" := JArr(OrdersJson(list))]))], [Call.GetUserOrders(userId)], false)
  }

  // The handlers, as they change the request's context.

  method SendCreateOrder(c: Context, h: Handler, userId: UInt64, items: seq<Int64>) returns (order: Order, ok: bool)
    modifies c
    ensures var s := CreateStep(h.orderClient, userId, items);
            && ok == s.reply.Proceed? && (ok ==> order == s.reply.value)
            && c.Snapshot() == old(c.Snapshot()).AfterStep(s)
  {
    var req := CreateOrderRequest(userId, items);
    c.Send(Call.CreateOrder(req));
    var created := h.orderClient.createOrder(req);
    if created.Err? {
      c.JSON(StatusInternalServerError, ErrorJson(created.msg));
      return Order(0, 0, [], ""), false;
    }
    return created.value, true;
  }

  method SendUpdateOrder(c: Context, h: Handler, orderId: UInt64, patch: OrderPatch) returns (order: Order, ok: bool)
    modifies c
    ensures var s := UpdateStep(h.orderClient, orderId, patch);
            && ok == s.reply.Proceed? && (ok ==> order == s.reply.value)
            && c.Snapshot() == old(c.Snapshot()).AfterStep(s)
  {
    var req := UpdateOrderRequest(orderId, 0, [], "");
    if patch.items.Some? {
      req := req.(items := patch.items.value);
    }
    if patch.status.Some? {
      req := req.(status := patch.status.value);
    }
    c.Send(Call.UpdateOrder(req));
    var updated := h.orderClient.updateOrder(req);
    if updated.Err? {
      c.JSON(StatusInternalServerError, ErrorJson(updated.msg));
      return Order(0, 0, [], ""), false;
    }
    return updated.value, true;
  }

  method SendDeleteOrder(c: Context, h: Handler, orderId: UInt64) returns (ok: bool)
    modifies c
    ensures var s := DeleteStep(h.orderClient, orderId);
            ok == s.reply.Proceed? && c.Snapshot() == old(c.Snapshot()).AfterStep(s)
  {
    c.Send(Call.DeleteOrder(orderId));
    var resp := h.orderClient.deleteOrder(orderId);
    if resp.Err? {
      c.JSON(StatusInternalServerError, ErrorJson(resp.msg));
      return false;
    }
    if !resp.value {
      c.JSON(StatusNotFound, MessageJson(OrderNotFound));
      return false;
    }
    return true;
  }

  method GetValidatedOrder(c: Context, h: Handler) returns (order: Order, ok: bool)
    modifies c
    ensures var s := GetValidatedOrderStep(old(c.keys), h.orderClient, c.Param("id"));
            && ok == s.reply.Proceed? && (ok ==> order == s.reply.value)
            && c.Snapshot() == old(c.Snapshot()).AfterStep(s)
  {
    var userId, found := GetUserId(c);
    if !found {
      return Order(0, 0, [], ""), false;
    }
    var orderId := ParseUint64(c.Param("id"));
    if orderId.None? {
      c.JSON(StatusBadRequest, ErrorJson(InvalidOrderId));
      return Order(0, 0, [], ""), false;
    }
    c.Send(Call.GetOrder(orderId.value));
    var got := h.orderClient.getOrder(orderId.value);
    if got.Err? {
      c.JSON(StatusNotFound, ErrorJson(OrderNotFound));
      return Order(0, 0, [], ""), false;
    }
    if got.value.userId != userId {
      c.JSON(StatusForbidden, ErrorJson(AccessDenied));
      return Order(0, 0, [], ""), false;
    }
    return got.value, true;
  }

  /** CreateOrder; `decoded` and `validationError` are what gin's binding makes of the body. */
  method CreateOrder(c: Context, h: Handler, decoded: Outcome<Option<seq<Int64>>>, validationError: string)
    modifies c
    ensures c.Snapshot() == old(c.Snapshot()).AfterEffect(
              CreateOrderEffect(old(c.keys), h.orderClient, BindCreateRequest(decoded, validationError)))
  {
    var userId, ok := GetUserId(c);
    if !ok {
      return;
    }
    var bound := BindCreateRequest(decoded, validationError);
    ok := BindJson(c, bound);
    if !ok {
      return;
    }
    var order;
    order, ok := SendCreateOrder(c, h, userId, bound.value);
    if !ok {
      return;
    }
    c.JSON(StatusCreated, ToOrderResponse(order));
  }

  method GetOrder(c: Context, h: Handler)
    modifies c
    ensures c.Snapshot() == old(c.Snapshot()).AfterEffect(GetOrderEffect(old(c.keys), h.orderClient, c.Param("id")))
  {
    var order, ok := GetValidatedOrder(c, h);
    if !ok {
      return;
    }
    c.JSON(StatusOK, ToOrderResponse(order));
  }

  method UpdateOwned(c: Context, h: Handler, order: Order, bound: Outcome<OrderPatch>)
    modifies c
    ensures c.Snapshot() == old(c.Snapshot()).AfterEffect(UpdateOwnedEffect(h.orderClient, order, bound))
  {
    var ok := BindJson(c, bound);
    if !ok {
      return;
    }
    var updated;
    updated, ok := SendUpdateOrder(c, h, order.id, bound.value);
    if !ok {
      return;
    }
    c.JSON(StatusOK, ToOrderResponse(updated));
  }

  method UpdateOrder(c: Context, h: Handler, bound: Outcome<OrderPatch>)
    modifies c
    ensures c.Snapshot() == old(c.Snapshot()).AfterEffect(
              UpdateOrderEffect(old(c.keys), h.orderClient, c.Param("id"), bound))
  {
    var order, ok := GetValidatedOrder(c, h);
    if !ok {
      return;
    }
    UpdateOwned(c, h, order, bound);
  }

  method DeleteOwned(c: Context, h: Handler, order: Order)
    modifies c
    ensures c.Snapshot() == old(c.Snapshot()).AfterEffect(DeleteOwnedEffect(h.orderClient, order))
  {
    var ok := SendDeleteOrder(c, h, order.id);
    if !ok {
      return;
    }
    c.JSON(StatusOK, MessageJson(OrderDeleted));
  }

  method DeleteOrder(c: Context, h: Handler)
    modifies c
    ensures c.Snapshot() == old(c.Snapshot()).AfterEffect(DeleteOrderEffect(old(c.keys), h.orderClient, c.Param("id")))
  {
    var order, ok := GetValidatedOrder(c, h);
    if !ok {
      return;
    }
    DeleteOwned(c, h, order);
  }

  /** GetUserOrders' append loop: one response shape per order, in order. */
  method CollectOrders(list: seq<Order>) returns (response: seq<Json>)
    ensures response == OrdersJson(list)
  {
    response := [];
    var i := 0;
    while i < |list|
      invariant 0 <= i <= |list|
      invariant response == OrdersJson(list[..i])
    {
      OrdersJsonSnoc(list, i);
      response := response + [ToOrderResponse(list[i])];
      i := i + 1;
    }
    assert list[..i] == list;
  }

  method GetUserOrders(c: Context, h: Handler)
    modifies c
    ensures c.Snapshot() == old(c.Snapshot()).AfterEffect(GetUserOrdersEffect(old(c.keys), h.orderClient))
  {
    var userId := GetUserIdFromToken(c.keys);
    if userId.Err? {
      c.JSON(StatusUnauthorized, ErrorJson(userId.msg));
      return;
    }
    c.Send(Call.GetUserOrders(userId.value));
    var orders := h.orderClient.getUserOrders(userId.value);
    if orders.Err? {
      c.JSON(StatusInternalServerError, ErrorJson(orders.msg));
      return;
    }
    var response := CollectOrders(orders.value);
    c.JSON(StatusOK, JObj(map["orders" := JArr(response)]));
  }

  // Properties across the handlers.

  /**
   * Without an identity none of the four identity-checked handlers reads the body or calls a
   * backend: each writes getUserID's 401 and nothing else.
   */
  lemma NoIdentityNoCalls(keys: map<string, Value>, orders: OrderService, idParam: string,
                          bound: Outcome<seq<Int64>>, patch: Outcome<OrderPatch>)
    requires forall id: UInt64 :: !ClaimsIdentify(keys, id)
    ensures var e := CreateOrderEffect(keys, orders, bound);
            e.sent == [] && !e.readsBody && e.writes == [GetUserIdReply(keys).response]
    ensures var e := GetOrderEffect(keys, orders, idParam);
            e.sent == [] && e.writes == [GetUserIdReply(keys).response]
    ensures var e := UpdateOrderEffect(keys, orders, idParam, patch);
            e.sent == [] && !e.readsBody && e.writes == [GetUserIdReply(keys).response]
    ensures var e := DeleteOrderEffect(keys, orders, idParam);
            e.sent == [] && e.writes == [GetUserIdReply(keys).response]
    ensures GetUserOrdersEffect(keys, orders).sent == []
  {
    assert GetUserIdReply(keys).Respond?;
    UserIdVariantsAgree(keys);
  }

  /**
   * UpdateOrder changes an order only for its owner, and then the order the backend returned for
   * the path's id, with the bound patch.
   */
  lemma UpdateMutatesOnlyOwnedOrder(keys: map<string, Value>, orders: OrderService, idParam: string,
                                    bound: Outcome<OrderPatch>)
    ensures forall call :: call in UpdateOrderEffect(keys, orders, idParam, bound).sent && call.IsMutation() ==>
              && OwnsOrder(keys, orders, idParam) && bound.Ok?
              && call == Call.UpdateOrder(UpdateRequestOf(orders.getOrder(ParseUint64(idParam).value).value.id, bound.value))
  {
  }

  /** 404 and 403 tell apart a missing order from somebody else's; neither changes anything. */
  lemma NotFoundVersusForbidden(keys: map<string, Value>, orders: OrderService, idParam: string, bound: Outcome<OrderPatch>)
    requires GetUserIdReply(keys).Proceed? && ParseUint64(idParam).Some?
    ensures var e := GetOrderEffect(keys, orders, idParam);
            e.writes[0].status == StatusNotFound <==> orders.getOrder(ParseUint64(idParam).value).Err?
    ensures var e := GetOrderEffect(keys, orders, idParam);
            e.writes[0].status == StatusForbidden <==>
              orders.getOrder(ParseUint64(idParam).value).Ok?
              && orders.getOrder(ParseUint64(idParam).value).value.userId != GetUserIdReply(keys).value
    ensures !OwnsOrder(keys, orders, idParam) ==>
              && UpdateOrderEffect(keys, orders, idParam, bound).sent == [Call.GetOrder(ParseUint64(idParam).value)]
              && DeleteOrderEffect(keys, orders, idParam).sent == [Call.GetOrder(ParseUint64(idParam).value)]
  {
    var id := ParseUint64(idParam).value;
    var userId := GetUserIdReply(keys).value;
    if orders.getOrder(id).Ok? && orders.getOrder(id).value.userId == userId {
      assert OwnsOrder(keys, orders, idParam);
    } else if orders.getOrder(id).Ok? {
      // Claims identify at most one user, so the owner is not the caller.
      assert !ClaimsIdentify(keys, orders.getOrder(id).value.userId);
    }
  }

  /** Every order the gateway creates has at least one item and belongs to the caller. */
  lemma CreatedOrdersOwnedAndNonEmpty(keys: map<string, Value>, orders: OrderService,
                                      decoded: Outcome<Option<seq<Int64>>>, validationError: string)
    ensures forall call :: call in CreateOrderEffect(keys, orders, BindCreateRequest(decoded, validationError)).sent ==>
              |call.create.items| >= 1 && ClaimsIdentify(keys, call.create.userId)
  {
  }

  /**
   * The update request carries no presence information: two patches yield the same request
   * exactly when they agree once empty fields are treated as absent. So a client cannot clear
   * an order's items or status, and the request's user id is always zero.
   */
  lemma UpdateConflatesZeroValues(orderId: UInt64, p1: OrderPatch, p2: OrderPatch)
    ensures UpdateRequestOf(orderId, p1) == UpdateRequestOf(orderId, p2) <==> Normalized(p1) == Normalized(p2)
  {
    var r1, r2 := UpdateRequestOf(orderId, p1), UpdateRequestOf(orderId, p2);
    if Normalized(p1) == Normalized(p2) {
      assert r1.items == r2.items by {
        if p1.items == Some([]) || p1.items.None? {
          assert Normalized(p2).items.None?;
        }
      }
      assert r1.status == r2.status by {
        if p1.status == Some("") || p1.status.None? {
          assert Normalized(p2).status.None?;
        }
      }
    }
  }

  /** The listing shows every one of the user's orders, losslessly and in backend order. */
  lemma ListingShowsEveryOrder(keys: map<string, Value>, orders: OrderService)
    requires GetUserIdFromToken(keys).Ok?
    requires orders.getUserOrders(GetUserIdFromToken(keys).value).Ok?
    ensures var list := orders.getUserOrders(GetUserIdFromToken(keys).value).value;
            var body := GetUserOrdersEffect(keys, orders).writes[0].body;
            && body.JObj? && body.fields.Keys == {"orders"} && body.fields["orders"].JArr?
            && |body.fields["orders"].elems| == |list|
            && forall i :: 0 <= i < |list| ==> OrderOf(body.fields["orders"].elems[i]) == Some(list[i])
  {
    var list := orders.getUserOrders(GetUserIdFromToken(keys).value).value;
    forall i | 0 <= i < |list|
      ensures OrderOf(OrdersJson(list)[i]) == Some(list[i])
    {
      OrderResponseLossless(list[i]);
    }
  }
}
