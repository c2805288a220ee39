/**
 * internal/api/handler.go: a second revision of the dish and order handlers, declared on the same
 * Handler type as internal/api/dish_handlers.go and internal/api/order_handlers.go. It checks no
 * identity at all. Modelled as its own module; the lemmas at the end say where it agrees with the
 * current handlers and where it does not.
 */
module HandlerRevision {
  import opened Base
  import opened Strconv
  import opened Backend
  import opened Gin
  import Responses
  import AuthHandlers
  import OrderHandlers
  import DishHandlers

  const InvalidDishIdFormat: string := "Invalid dish ID format"
  const InvalidOrderIdFormat: string := "Invalid order ID format"
  const InvalidUserIdFormat: string := "Invalid user ID format"
  const NotImplemented: string := "Not implemented"

  /** This file's own toDishResponse. */
  function ToDishResponse(dish: Dish): (j: Json)
    ensures j.JObj? && j.fields.Keys == Responses.DishKeys
  {
    JObj(map[
      "id" := JInt(dish.id),
      "name" := JStr(dish.name),
      "type" := JObj(map["id" := JInt(dish.dishType.id), "name" := JStr(dish.dishType.typeDish)]),
      "category" := JObj(map["id" := JInt(dish.category.id), "name" := JStr(dish.category.categoryDish)]),
      "nutrition" := JObj(map["calories" := JFloat(dish.nutFact.calories), "proteins" := JFloat(dish.nutFact.proteins),
                              "fats" := JFloat(dish.nutFact.fats), "carbohydrates" := JFloat(dish.nutFact.carbohydrates)]),
      "tag" := JObj(map["id" := JInt(dish.tag.id), "name" := JStr(dish.tag.tagDish)]),
      "recipe" := JStr(dish.recipe)])
  }

  /** This file's own toOrderResponse. */
  function ToOrderResponse(order: Order): (j: Json)
    ensures j.JObj? && j.fields.Keys == Responses.OrderKeys
  {
    JObj(map["id" := JInt(order.id), "user_id" := JInt(order.userId),
             "items" := JArr(seq(|order.items|, i requires 0 <= i < |order.items| => JInt(order.items[i]))),
             "status" := JStr(order.status)])
  }

  /** CreateOrder's body: user_id (0 when absent) and items (None when absent). */
  datatype CreateBody = CreateBody(userId: UInt64, items: Option<seq<Int64>>)

  /** The update body: each field optional. */
  datatype UpdateBody = UpdateBody(userId: Option<UInt64>, items: Option<seq<Int64>>, status: Option<string>)

  /**
   * CreateOrder's binding: `required` on user_id refuses the zero value, `required,min=1` on
   * items refuses an absent or empty list; `validationError` is the validator's text.
   */
  function BindCreateBody(decoded: Outcome<CreateBody>, validationError: string): (r: Outcome<CreateOrderRequest>)
    ensures r.Ok? <==> decoded.Ok? && decoded.value.userId != 0
                       && decoded.value.items.Some? && |decoded.value.items.value| >= 1
    ensures r.Ok? ==> r.value == CreateOrderRequest(decoded.value.userId, decoded.value.items.value)
    ensures r.Err? && decoded.Err? ==> r.msg == decoded.msg
  {
    match decoded
    case Err(msg) => Err(msg)
    case Ok(body) =>
      if body.userId == 0 || body.items.None? || |body.items.value| == 0 then Err(validationError)
      else Ok(CreateOrderRequest(body.userId, body.items.value))
  }

  /** The update request this revision builds: the path id, and each body field that is present. */
  function UpdateRequestOf(orderId: UInt64, body: UpdateBody): (req: UpdateOrderRequest)
    ensures req.id == orderId
    ensures req.userId == (if body.userId.Some? then body.userId.value else 0)
    ensures req.items == (if body.items.Some? then body.items.value else [])
    ensures req.status == (if body.status.Some? then body.status.value else "")
  {
    UpdateOrderRequest(orderId,
                       if body.userId.Some? then body.userId.value else 0,
                       if body.items.Some? then body.items.value else [],
                       if body.status.Some? then body.status.value else "")
  }

  function Error(status: int, msg: string): Response
  {
    Response(status, ErrorJson(msg))
  }

  /** GetDish: 400 "Invalid dish ID format", then 500, 404 "Dish not found" or 200 with the first dish. */
  function GetDishEffect(menu: MenuService, idParam: string): (e: Effect)
    ensures |e.writes| == 1 && !e.readsBody
    ensures ParseInt(idParam, 32).None? <==> e == Effect([Error(StatusBadRequest, InvalidDishIdFormat)], [], false)
    ensures e.writes[0].status == StatusOK ==>
              ParseInt(idParam, 32).Some? && -0x8000_0000 <= ParseInt(idParam, 32).value < 0x8000_0000
              && menu.getDishes(ParseInt(idParam, 32).value as Int32).Ok?
              && |menu.getDishes(ParseInt(idParam, 32).value as Int32).value| > 0
              && e.writes[0].body == ToDishResponse(menu.getDishes(ParseInt(idParam, 32).value as Int32).value[0])
    ensures ParseInt(idParam, 32).Some? ==> -0x8000_0000 <= ParseInt(idParam, 32).value < 0x8000_0000
    ensures ParseInt(idParam, 32).Some? && menu.getDishes(ParseInt(idParam, 32).value as Int32).Err? ==>
              e.writes[0] == Error(StatusInternalServerError, menu.getDishes(ParseInt(idParam, 32).value as Int32).msg)
    ensures ParseInt(idParam, 32).Some? && menu.getDishes(ParseInt(idParam, 32).value as Int32) == Ok([]) ==>
              e.writes[0] == Error(StatusNotFound, DishHandlers.DishNotFound)
  {
    ParseInt32Range(idParam);
    match ParseInt(idParam, 32)
    case None => Effect([Error(StatusBadRequest, InvalidDishIdFormat)], [], false)
    case Some(id) =>
      var id32 := id as Int32;
      match menu.getDishes(id32)
      case Err(msg) => Effect([Error(StatusInternalServerError, msg)], [GetDishes(id32)], false)
      case Ok(dishes) =>
        if |dishes| == 0 then Effect([Error(StatusNotFound, DishHandlers.DishNotFound)], [GetDishes(id32)], false)
        else Effect([Response(StatusOK, ToDishResponse(dishes[0]))], [GetDishes(id32)], false)
  }

  /** GetAllDishes: 500 with the backend's error, or 200 with every dish under "dishes". */
  function GetAllDishesEffect(menu: MenuService): (e: Effect)
    ensures |e.writes| == 1 && !e.readsBody && e.sent == [GetDishes(0)]
    ensures e.writes[0].status == StatusOK <==> menu.getDishes(0).Ok?
  {
    match menu.getDishes(0)
    case Err(msg) => Effect([Error(StatusInternalServerError, msg)], [GetDishes(0)], false)
    case Ok(dishes) =>
      var js := seq(|dishes|, i requires 0 <= i < |dishes| => ToDishResponse(dishes[i]));
      Effect([Response(StatusOK, JObj(map["dishes" := JArr(js)]))], [GetDishes(0)], false)
  }

  /** CreateOrder: the owner is whatever user_id the body names; 400, 500 or 201. */
  function CreateOrderEffect(orders: OrderService, bound: Outcome<CreateOrderRequest>): (e: Effect)
    ensures |e.writes| == 1 && e.readsBody
    ensures bound.Err? <==> e.sent == []
    ensures bound.Ok? ==> e.sent == [Call.CreateOrder(bound.value)]
    ensures e.writes[0].status == StatusCreated <==> bound.Ok? && orders.createOrder(bound.value).Ok?
    ensures bound.Err? ==> e.writes[0] == Error(StatusBadRequest, bound.msg)
    ensures bound.Ok? && orders.createOrder(bound.value).Err? ==>
              e.writes[0] == Error(StatusInternalServerError, orders.createOrder(bound.value).msg)
    ensures bound.Ok? && orders.createOrder(bound.value).Ok? ==>
              e.writes[0] == Response(StatusCreated, ToOrderResponse(orders.createOrder(bound.value).value))
  {
    match bound
    case Err(msg) => Effect([Error(StatusBadRequest, msg)], [], true)
    case Ok(req) =>
      match orders.createOrder(req)
      case Err(msg) => Effect([Error(StatusInternalServerError, msg)], [Call.CreateOrder(req)], true)
      case Ok(order) => Effect([Response(StatusCreated, ToOrderResponse(order))], [Call.CreateOrder(req)], true)
  }

  /** GetOrder: 400 "Invalid order ID format", 500 on any backend error, else 200 with the order, whoever owns it. */
  function GetOrderEffect(orders: OrderService, idParam: string): (e: Effect)
    ensures |e.writes| == 1 && !e.readsBody
    ensures ParseUint64(idParam).None? <==> e == Effect([Error(StatusBadRequest, InvalidOrderIdFormat)], [], false)
    ensures ParseUint64(idParam).Some? ==>
              && e.sent == [Call.GetOrder(ParseUint64(idParam).value)]
              && (orders.getOrder(ParseUint64(idParam).value).Err? <==> e.writes[0].status == StatusInternalServerError)
              && (orders.getOrder(ParseUint64(idParam).value).Ok? ==>
                    e.writes[0] == Response(StatusOK, ToOrderResponse(orders.getOrder(ParseUint64(idParam).value).value)))
  {
    match ParseUint64(idParam)
    case None => Effect([Error(StatusBadRequest, InvalidOrderIdFormat)], [], false)
    case Some(id) =>
      match orders.getOrder(id)
      case Err(msg) => Effect([Error(StatusInternalServerError, msg)], [Call.GetOrder(id)], false)
      case Ok(order) => Effect([Response(StatusOK, ToOrderResponse(order))], [Call.GetOrder(id)], false)
  }

  /** UpdateOrder: 400 on the id, 400 on the body, then UpdateRequestOf sent as is; 500 or 200. */
  function UpdateOrderEffect(orders: OrderService, idParam: string, bound: Outcome<UpdateBody>): (e: Effect)
    ensures |e.writes| == 1
    ensures e.readsBody <==> ParseUint64(idParam).Some?
    ensures e.sent != [] <==> ParseUint64(idParam).Some? && bound.Ok?
    ensures e.sent != [] ==> e.sent == [Call.UpdateOrder(UpdateRequestOf(ParseUint64(idParam).value, bound.value))]
    ensures ParseUint64(idParam).None? ==> e.writes[0] == Error(StatusBadRequest, InvalidOrderIdFormat)
    ensures ParseUint64(idParam).Some? && bound.Err? ==> e.writes[0] == Error(StatusBadRequest, bound.msg)
    ensures ParseUint64(idParam).Some? && bound.Ok? ==>
              var result := orders.updateOrder(UpdateRequestOf(ParseUint64(idParam).value, bound.value));
              && (result.Err? ==> e.writes[0] == Error(StatusInternalServerError, result.msg))
              && (result.Ok? ==> e.writes[0] == Response(StatusOK, ToOrderResponse(result.value)))
  {
    match ParseUint64(idParam)
    case None => Effect([Error(StatusBadRequest, InvalidOrderIdFormat)], [], false)
    case Some(id) =>
      match bound
      case Err(msg) => Effect([Error(StatusBadRequest, msg)], [], true)
      case Ok(body) =>
        var req := UpdateRequestOf(id, body);
        match orders.updateOrder(req)
        case Err(msg) => Effect([Error(StatusInternalServerError, msg)], [Call.UpdateOrder(req)], true)
        case Ok(order) => Effect([Response(StatusOK, ToOrderResponse(order))], [Call.UpdateOrder(req)], true)
  }

  /** DeleteOrder: 400 on the id; 500 on error; 200 when deleted, 404 {"message": "Order not found"} when not. */
  function DeleteOrderEffect(orders: OrderService, idParam: string): (e: Effect)
    ensures |e.writes| == 1 && !e.readsBody
    ensures e.sent != [] <==> ParseUint64(idParam).Some?
    ensures e.writes[0] == Response(StatusOK, MessageJson(OrderHandlers.OrderDeleted)) <==>
              ParseUint64(idParam).Some? && orders.deleteOrder(ParseUint64(idParam).value) == Ok(true)
    ensures ParseUint64(idParam).None? ==> e.writes[0] == Error(StatusBadRequest, InvalidOrderIdFormat)
    ensures ParseUint64(idParam).Some? && orders.deleteOrder(ParseUint64(idParam).value) == Ok(false) ==>
              e.writes[0] == Response(StatusNotFound, MessageJson(OrderHandlers.OrderNotFound))
    ensures ParseUint64(idParam).Some? && orders.deleteOrder(ParseUint64(idParam).value).Err? ==>
              e.writes[0] == Error(StatusInternalServerError, orders.deleteOrder(ParseUint64(idParam).value).msg)
  {
    match ParseUint64(idParam)
    case None => Effect([Error(StatusBadRequest, InvalidOrderIdFormat)], [], false)
    case Some(id) =>
      match orders.deleteOrder(id)
      case Err(msg) => Effect([Error(StatusInternalServerError, msg)], [Call.DeleteOrder(id)], false)
      case Ok(deleted) =>
        if deleted then Effect([Response(StatusOK, MessageJson(OrderHandlers.OrderDeleted))], [Call.DeleteOrder(id)], false)
        else Effect([Response(StatusNotFound, MessageJson(OrderHandlers.OrderNotFound))], [Call.DeleteOrder(id)], false)
  }

  /** GetUserOrders: 400 "Invalid user ID format", otherwise always 501 "Not implemented"; never calls a backend. */
  function GetUserOrdersEffect(userIdParam: string): (e: Effect)
    ensures e.sent == [] && !e.readsBody && |e.writes| == 1
    ensures e.writes[0].status == StatusNotImplemented <==> ParseUint64(userIdParam).Some?
    ensures ParseUint64(userIdParam).None? ==> e.writes[0] == Error(StatusBadRequest, InvalidUserIdFormat)
    ensures ParseUint64(userIdParam).Some? ==> e.writes[0] == Error(StatusNotImplemented, NotImplemented)
  {
    if ParseUint64(userIdParam).None? then Effect([Error(StatusBadRequest, InvalidUserIdFormat)], [], false)
    else Effect([Error(StatusNotImplemented, NotImplemented)], [], false)
  }

  // The handlers, as they change the request's context.

  method GetDish(c: Context, h: Handler)
    modifies c
    ensures c.Snapshot() == old(c.Snapshot()).AfterEffect(GetDishEffect(h.menuClient, c.Param("id")))
  {
    var id := ParseInt(c.Param("id"), 32);
    if id.None? {
      c.JSON(StatusBadRequest, ErrorJson(InvalidDishIdFormat));
      return;
    }
    ParseInt32Range(c.Param("id"));
    var id32 := id.value as Int32;
    c.Send(GetDishes(id32));
    var resp := h.menuClient.getDishes(id32);
    if resp.Err? {
      c.JSON(StatusInternalServerError, ErrorJson(resp.msg));
      return;
    }
    if |resp.value| == 0 {
      c.JSON(StatusNotFound, ErrorJson(DishHandlers.DishNotFound));
      return;
    }
    c.JSON(StatusOK, ToDishResponse(resp.value[0]));
  }

  method GetAllDishes(c: Context, h: Handler)
    modifies c
    ensures c.Snapshot() == old(c.Snapshot()).AfterEffect(GetAllDishesEffect(h.menuClient))
  {
    c.Send(GetDishes(0));
    var resp := h.menuClient.getDishes(0);
    if resp.Err? {
      c.JSON(StatusInternalServerError, ErrorJson(resp.msg));
      return;
    }
    var list := resp.value;
    var dishes: seq<Json> := [];
    var i := 0;
    while i < |list|
      invariant 0 <= i <= |list|
      invariant |dishes| == i
      invariant forall k :: 0 <= k < i ==> dishes[k] == ToDishResponse(list[k])
    {
      dishes := dishes + [ToDishResponse(list[i])];
      i := i + 1;
    }
    assert dishes == seq(|list|, k requires 0 <= k < |list| => ToDishResponse(list[k]));
    c.JSON(StatusOK, JObj(map["dishes" := JArr(dishes)]));
  }

  /** CreateOrder; `decoded` and `validationError` are what gin's binding makes of the body. */
  method CreateOrder(c: Context, h: Handler, decoded: Outcome<CreateBody>, validationError: string)
    modifies c
    ensures c.Snapshot() == old(c.Snapshot()).AfterEffect(
              CreateOrderEffect(h.orderClient, BindCreateBody(decoded, validationError)))
  {
    var bound := c.ShouldBindJSON(BindCreateBody(decoded, validationError));
    if bound.Err? {
      c.JSON(StatusBadRequest, ErrorJson(bound.msg));
      return;
    }
    c.Send(Call.CreateOrder(bound.value));
    var order := h.orderClient.createOrder(bound.value);
    if order.Err? {
      c.JSON(StatusInternalServerError, ErrorJson(order.msg));
      return;
    }
    c.JSON(StatusCreated, ToOrderResponse(order.value));
  }

  method GetOrder(c: Context, h: Handler)
    modifies c
    ensures c.Snapshot() == old(c.Snapshot()).AfterEffect(GetOrderEffect(h.orderClient, c.Param("id")))
  {
    var id := ParseUint64(c.Param("id"));
    if id.None? {
      c.JSON(StatusBadRequest, ErrorJson(InvalidOrderIdFormat));
      return;
    }
    c.Send(Call.GetOrder(id.value));
    var order := h.orderClient.getOrder(id.value);
    if order.Err? {
      c.JSON(StatusInternalServerError, ErrorJson(order.msg));
      return;
    }
    c.JSON(StatusOK, ToOrderResponse(order.value));
  }

  /** UpdateOrder's request: zero values first, then each field the body carries. */
  method BuildUpdateRequest(orderId: UInt64, body: UpdateBody) returns (req: UpdateOrderRequest)
    ensures req == UpdateRequestOf(orderId, body)
  {
    req := UpdateOrderRequest(orderId, 0, [], "");
    if body.userId.Some? {
      req := req.(userId := body.userId.value);
    }
    if body.items.Some? {
      req := req.(items := body.items.value);
    }
    if body.status.Some? {
      req := req.(status := body.status.value);
    }
  }

  method UpdateOrder(c: Context, h: Handler, bound: Outcome<UpdateBody>)
    modifies c
    ensures c.Snapshot() == old(c.Snapshot()).AfterEffect(UpdateOrderEffect(h.orderClient, c.Param("id"), bound))
  {
    var id := ParseUint64(c.Param("id"));
    if id.None? {
      c.JSON(StatusBadRequest, ErrorJson(InvalidOrderIdFormat));
      return;
    }
    var body := c.ShouldBindJSON(bound);
    if body.Err? {
      c.JSON(StatusBadRequest, ErrorJson(body.msg));
      return;
    }
    var req := BuildUpdateRequest(id.value, body.value);
    c.Send(Call.UpdateOrder(req));
    var order := h.orderClient.updateOrder(req);
    if order.Err? {
      c.JSON(StatusInternalServerError, ErrorJson(order.msg));
      return;
    }
    c.JSON(StatusOK, ToOrderResponse(order.value));
  }

  method DeleteOrder(c: Context, h: Handler)
    modifies c
    ensures c.Snapshot() == old(c.Snapshot()).AfterEffect(DeleteOrderEffect(h.orderClient, c.Param("id")))
  {
    var id := ParseUint64(c.Param("id"));
    if id.None? {
      c.JSON(StatusBadRequest, ErrorJson(InvalidOrderIdFormat));
      return;
    }
    c.Send(Call.DeleteOrder(id.value));
    var resp := h.orderClient.deleteOrder(id.value);
    if resp.Err? {
      c.JSON(StatusInternalServerError, ErrorJson(resp.msg));
      return;
    }
    if resp.value {
      c.JSON(StatusOK, MessageJson(OrderHandlers.OrderDeleted));
    } else {
      c.JSON(StatusNotFound, MessageJson(OrderHandlers.OrderNotFound));
    }
  }

  method GetUserOrders(c: Context, h: Handler)
    modifies c
    ensures c.Snapshot() == old(c.Snapshot()).AfterEffect(GetUserOrdersEffect(c.Param("user_id")))
  {
    var userId := ParseUint64(c.Param("user_id"));
    if userId.None? {
      c.JSON(StatusBadRequest, ErrorJson(InvalidUserIdFormat));
      return;
    }
    c.JSON(StatusNotImplemented, ErrorJson(NotImplemented));
  }

  // Agreement and divergence with the current handlers.

  /** Both files' response shapes are the same maps. */
  lemma SameResponseShapes(dish: Dish, order: Order)
    ensures ToDishResponse(dish) == Responses.ToDishResponse(dish)
    ensures ToOrderResponse(order) == Responses.ToOrderResponse(order)
  {
    assert ToOrderResponse(order).fields["items"] == JArr(Responses.ItemsJson(order.items));
  }

  /**
   * GetDish: the same backend request and the same answer whenever the id parses; on a bad id
   * both answer 400 without a backend call, but with different messages.
   */
  lemma GetDishDivergesOnlyInMessage(menu: MenuService, idParam: string)
    ensures ParseInt(idParam, 32).Some? ==> GetDishEffect(menu, idParam) == DishHandlers.GetDishEffect(menu, idParam)
    ensures ParseInt(idParam, 32).None? ==>
              && GetDishEffect(menu, idParam).writes[0].status == DishHandlers.GetDishEffect(menu, idParam).writes[0].status
              && GetDishEffect(menu, idParam).writes[0].body != DishHandlers.GetDishEffect(menu, idParam).writes[0].body
  {
    ParseInt32Range(idParam);
    if ParseInt(idParam, 32).Some? {
      var id32 := ParseInt(idParam, 32).value as Int32;
      if menu.getDishes(id32).Ok? && |menu.getDishes(id32).value| > 0 {
        SameResponseShapes(menu.getDishes(id32).value[0], Order(0, 0, [], ""));
      }
    } else {
      assert ErrorJson(InvalidDishIdFormat).fields["error"] != ErrorJson("Invalid id format").fields["error"] by {
        assert InvalidDishIdFormat[8] == 'd' && "Invalid id format"[8] == 'i';
      }
    }
  }

  /** GetAllDishes is the same in both files. */
  lemma GetAllDishesAgrees(menu: MenuService)
    ensures GetAllDishesEffect(menu) == DishHandlers.GetAllDishesEffect(menu)
  {
    if menu.getDishes(0).Ok? {
      var dishes := menu.getDishes(0).value;
      forall i | 0 <= i < |dishes|
        ensures ToDishResponse(dishes[i]) == Responses.ToDishResponse(dishes[i])
      {
        SameResponseShapes(dishes[i], Order(0, 0, [], ""));
      }
      assert seq(|dishes|, i requires 0 <= i < |dishes| => ToDishResponse(dishes[i])) == Responses.DishesJson(dishes);
    }
  }

  /**
   * Who owns a new order: here the client, with no claims at all, gets an order created for any
   * non-zero user id it names; the current handler sends nothing without an identity.
   */
  lemma RevisionTrustsClientOwner(orders: OrderService, owner: UInt64, items: seq<Int64>, validationError: string)
    requires owner != 0 && |items| >= 1
    ensures CreateOrderEffect(orders, BindCreateBody(Ok(CreateBody(owner, Some(items))), validationError)).sent
              == [Call.CreateOrder(CreateOrderRequest(owner, items))]
    ensures OrderHandlers.CreateOrderEffect(map[], orders, OrderHandlers.BindCreateRequest(Ok(Some(items)), validationError)).sent == []
  {
  }

  /**
   * Reading an order: a backend error is 500 here and 404 in the current handler; an order owned
   * by someone else is served here with 200 and refused there with 403.
   */
  lemma GetOrderDivergence(keys: map<string, Value>, orders: OrderService, idParam: string)
    requires AuthHandlers.GetUserIdReply(keys).Proceed? && ParseUint64(idParam).Some?
    ensures orders.getOrder(ParseUint64(idParam).value).Err? ==>
              && GetOrderEffect(orders, idParam).writes[0].status == StatusInternalServerError
              && OrderHandlers.GetOrderEffect(keys, orders, idParam).writes[0].status == StatusNotFound
    ensures orders.getOrder(ParseUint64(idParam).value).Ok?
            && orders.getOrder(ParseUint64(idParam).value).value.userId != AuthHandlers.GetUserIdReply(keys).value ==>
              && GetOrderEffect(orders, idParam).writes[0].status == StatusOK
              && OrderHandlers.GetOrderEffect(keys, orders, idParam).writes[0].status == StatusForbidden
  {
    OrderHandlers.NotFoundVersusForbidden(keys, orders, idParam, Err(""));
  }

  /** Without a user_id in the body, this revision builds the same update request as the current updateOrder. */
  lemma UpdateRequestsAgree(orderId: UInt64, items: Option<seq<Int64>>, status: Option<string>)
    ensures UpdateRequestOf(orderId, UpdateBody(None, items, status))
              == OrderHandlers.UpdateRequestOf(orderId, OrderHandlers.OrderPatch(items, status))
  {
  }

  /** Deleting an order its caller owns ends with the same response in both files. */
  lemma DeleteAgreesOnOwnedOrders(keys: map<string, Value>, orders: OrderService, idParam: string)
    requires OrderHandlers.OwnsOrder(keys, orders, idParam)
    requires orders.getOrder(ParseUint64(idParam).value).value.id == ParseUint64(idParam).value
    ensures DeleteOrderEffect(orders, idParam).writes == OrderHandlers.DeleteOrderEffect(keys, orders, idParam).writes
  {
  }

  /**
   * Listing a user's orders: this revision never asks the order service, whatever the path says,
   * while the current handler asks for exactly the token's user.
   */
  lemma UserOrdersNeverListed(keys: map<string, Value>, orders: OrderService, userIdParam: string)
    requires AuthHandlers.GetUserIdFromToken(keys).Ok?
    ensures GetUserOrdersEffect(userIdParam).sent == []
    ensures GetUserOrdersEffect(userIdParam).writes[0].status != StatusOK
    ensures OrderHandlers.GetUserOrdersEffect(keys, orders).sent
              == [Call.GetUserOrders(AuthHandlers.GetUserIdFromToken(keys).value)]
  {
  }
}
