/**
 * internal/api/dish_handlers.go: one dish by id, and the whole menu. Neither checks identity.
 */
module DishHandlers {
  import opened Base
  import opened Strconv
  import opened Backend
  import opened Gin
  import opened Responses
  import opened AuthHandlers

  const DishNotFound: string := "Dish not found"

  /** getDish: asks the menu for one id; 500 with the backend's error, 404 on an empty list, else the first dish. */
  function GetDishStep(menu: MenuService, id: Int32): (s: Step<Dish>)
    ensures s.sent == [GetDishes(id)] && !s.readsBody
    ensures s.reply.Proceed? <==> menu.getDishes(id).Ok? && |menu.getDishes(id).value| > 0
    ensures s.reply.Proceed? ==> s.reply.value == menu.getDishes(id).value[0]
    ensures menu.getDishes(id) == Ok([]) ==> s.reply == Respond(Response(StatusNotFound, ErrorJson(DishNotFound)))
    ensures menu.getDishes(id).Err? ==>
              s.reply == Respond(Response(StatusInternalServerError, ErrorJson(menu.getDishes(id).msg)))
  {
    match menu.getDishes(id)
    case Err(msg) => Step(Respond(Response(StatusInternalServerError, ErrorJson(msg))), [GetDishes(id)], false)
    case Ok(dishes) =>
      if |dishes| == 0 then Step(Respond(Response(StatusNotFound, ErrorJson(DishNotFound))), [GetDishes(id)], false)
      else Step(Proceed(dishes[0]), [GetDishes(id)], false)
  }

  /** getAllDishes: the id-less request (id 0); every dish in its response shape, in backend order. */
  function GetAllDishesStep(menu: MenuService): (s: Step<seq<Json>>)
    ensures s.sent == [GetDishes(0)] && !s.readsBody
    ensures s.reply.Proceed? <==> menu.getDishes(0).Ok?
    ensures s.reply.Proceed? ==> |s.reply.value| == |menu.getDishes(0).value|
    ensures s.reply.Proceed? ==> forall i :: 0 <= i < |s.reply.value| ==>
              DishOf(s.reply.value[i]) == Some(menu.getDishes(0).value[i])
    ensures s.reply.Respond? ==> s.reply.response == Response(StatusInternalServerError, ErrorJson(menu.getDishes(0).msg))
  {
    match menu.getDishes(0)
    case Err(msg) => Step(Respond(Response(StatusInternalServerError, ErrorJson(msg))), [GetDishes(0)], false)
    case Ok(dishes) =>
      assert forall i :: 0 <= i < |dishes| ==> DishOf(DishesJson(dishes)[i]) == Some(dishes[i]) by {
        forall i | 0 <= i < |dishes| { DishResponseLossless(dishes[i]); }
      }
      Step(Proceed(DishesJson(dishes)), [GetDishes(0)], false)
  }

  /**
   * GetDish: a 32-bit decimal id (400 "Invalid id format", no backend call), then getDish; 200 with
   * the first dish's response shape.
   */
  function GetDishEffect(menu: MenuService, idParam: string): (e: Effect)
    ensures |e.writes| == 1 && !e.readsBody
    ensures ParseInt(idParam, 32).None? ==>
              e == Effect([Response(StatusBadRequest, ErrorJson("Invalid id format"))], [], false)
    ensures ParseInt(idParam, 32).Some? ==>
              -0x8000_0000 <= ParseInt(idParam, 32).value < 0x8000_0000
              && e.sent == [GetDishes(ParseInt(idParam, 32).value as Int32)]
    ensures e.writes[0].status == StatusOK <==>
              ParseInt(idParam, 32).Some?
              && menu.getDishes(ParseInt(idParam, 32).value as Int32).Ok?
              && |menu.getDishes(ParseInt(idParam, 32).value as Int32).value| > 0
    ensures e.writes[0].status == StatusOK ==>
              ParseInt(idParam, 32).Some?
              && e.writes[0].body == ToDishResponse(menu.getDishes(ParseInt(idParam, 32).value as Int32).value[0])
    ensures ParseInt(idParam, 32).Some? && menu.getDishes(ParseInt(idParam, 32).value as Int32).Err? ==>
              e.writes[0] == Response(StatusInternalServerError,
                                      ErrorJson(menu.getDishes(ParseInt(idParam, 32).value as Int32).msg))
    ensures ParseInt(idParam, 32).Some? && menu.getDishes(ParseInt(idParam, 32).value as Int32) == Ok([]) ==>
              e.writes[0] == Response(StatusNotFound, ErrorJson(DishNotFound))
  {
    ParseInt32Range(idParam);
    assert "Invalid " + "id" + " format" == "Invalid id format";
    match ParseIdParamReply("id", idParam, 32)
    case Respond(r) => Effect([r], [], false)
    case Proceed(id) =>
      var s := GetDishStep(menu, id as Int32);
      match s.reply
      case Respond(r) => Effect([r], s.sent, false)
      case Proceed(dish) => Effect([Response(StatusOK, ToDishResponse(dish))], s.sent, false)
  }

  /** GetAllDishes: 200 with every dish under "dishes", or the 500 getAllDishes wrote. */
  function GetAllDishesEffect(menu: MenuService): (e: Effect)
    ensures |e.writes| == 1 && !e.readsBody && e.sent == [GetDishes(0)]
    ensures e.writes[0].status == StatusOK <==> menu.getDishes(0).Ok?
    ensures menu.getDishes(0).Ok? ==> e.writes[0].body == JObj(map["dishes" := JArr(DishesJson(menu.getDishes(0).value))])
  {
    var s := GetAllDishesStep(menu);
    match s.reply
    case Respond(r) => Effect([r], s.sent, false)
    case Proceed(dishes) => Effect([Response(StatusOK, JObj(map["dishes" := JArr(dishes)]))], s.sent, false)
  }

  method FetchDish(c: Context, h: Handler, id: Int32) returns (dish: Dish, ok: bool)
    modifies c
    ensures var s := GetDishStep(h.menuClient, id);
            && ok == s.reply.Proceed? && (ok ==> dish == s.reply.value)
            && c.Snapshot() == old(c.Snapshot()).AfterStep(s)
  {
    c.Send(GetDishes(id));
    var resp := h.menuClient.getDishes(id);
    if resp.Err? {
      c.JSON(StatusInternalServerError, ErrorJson(resp.msg));
      return Dish(0, "", DishType(0, ""), Category(0, ""), NutFact(0.0, 0.0, 0.0, 0.0), Tag(0, ""), ""), false;
    }
    if |resp.value| == 0 {
      c.JSON(StatusNotFound, ErrorJson(DishNotFound));
      return Dish(0, "", DishType(0, ""), Category(0, ""), NutFact(0.0, 0.0, 0.0, 0.0), Tag(0, ""), ""), false;
    }
    return resp.value[0], true;
  }

  /** getAllDishes' append loop: one response shape per dish, in order. */
  method CollectDishes(list: seq<Dish>) returns (dishes: seq<Json>)
    ensures dishes == DishesJson(list)
  {
    dishes := [];
    var i := 0;
    while i < |list|
      invariant 0 <= i <= |list|
      invariant dishes == DishesJson(list[..i])
    {
      DishesJsonSnoc(list, i);
      dishes := dishes + [ToDishResponse(list[i])];
      i := i + 1;
    }
    assert list[..i] == list;
  }

  method FetchAllDishes(c: Context, h: Handler) returns (dishes: seq<Json>, ok: bool)
    modifies c
    ensures var s := GetAllDishesStep(h.menuClient);
            && ok == s.reply.Proceed? && (ok ==> dishes == s.reply.value)
            && c.Snapshot() == old(c.Snapshot()).AfterStep(s)
  {
    c.Send(GetDishes(0));
    var resp := h.menuClient.getDishes(0);
    if resp.Err? {
      c.JSON(StatusInternalServerError, ErrorJson(resp.msg));
      return [], false;
    }
    dishes := CollectDishes(resp.value);
    ok := true;
  }

  method GetDish(c: Context, h: Handler)
    modifies c
    ensures c.Snapshot() == old(c.Snapshot()).AfterEffect(GetDishEffect(h.menuClient, c.Param("id")))
  {
    var id, ok := ParseIdParam(c, "id", 32);
    if !ok {
      return;
    }
    ParseInt32Range(c.Param("id"));
    var dish;
    dish, ok := FetchDish(c, h, id as Int32);
    if !ok {
      return;
    }
    c.JSON(StatusOK, ToDishResponse(dish));
  }

  method GetAllDishes(c: Context, h: Handler)
    modifies c
    ensures c.Snapshot() == old(c.Snapshot()).AfterEffect(GetAllDishesEffect(h.menuClient))
  {
    var dishes, ok := FetchAllDishes(c, h);
    if !ok {
      return;
    }
    c.JSON(StatusOK, JObj(map["dishes" := JArr(dishes)]));
  }

  /** The dish endpoint answers any canonical 32-bit id by asking the menu for exactly that id. */
  lemma GetDishAsksForTheId(menu: MenuService, v: Int32)
    ensures GetDishEffect(menu, FormatInt(v)).sent == [GetDishes(v)]
  {
    ParseInt32Format(v);
  }
}
