/**
 * api/menu.go (with its helpers in api/handler.go): the older menu endpoint. It binds a body
 * holding a dish id, asks the menu service, and answers every dish in a flat shape: type,
 * category and tag reduced to their labels, nutrition under "nutrition_fact".
 *
 * As written, the handler does not stop after reporting a backend error: it goes on to read the
 * missing reply. GetDishesAsWritten models that path; GetDishes is the handler that stops after
 * the 500, which is what the rest of the code evidently intends.
 */
module LegacyMenu {
  import opened Base
  import opened Backend
  import opened Gin
  import Responses

  const InvalidPayload: string := "Invalid request payload"
  const InternalError: string := "Internal server error"
  const FlatKeys: set<string> := {"id", "name", "type", "category", "nutrition_fact", "tag", "recipe"}

  /** One dish in the flat shape the loop builds. */
  function FlatDish(dish: Dish): (j: Json)
    ensures j.JObj? && j.fields.Keys == FlatKeys
    ensures j.fields["nutrition_fact"] == Responses.NutritionJson(dish.nutFact)
    ensures j.fields["type"] == JStr(dish.dishType.typeDish) && j.fields["category"] == JStr(dish.category.categoryDish)
            && j.fields["tag"] == JStr(dish.tag.tagDish)
  {
    JObj(map[
      "id" := JInt(dish.id),
      "name" := JStr(dish.name),
      "type" := JStr(dish.dishType.typeDish),
      "category" := JStr(dish.category.categoryDish),
      "nutrition_fact" := Responses.NutritionJson(dish.nutFact),
      "tag" := JStr(dish.tag.tagDish),
      "recipe" := JStr(dish.recipe)])
  }

  /** The flat shape read off the nested one: each {id, name} pair replaced by its name, nutrition renamed. */
  function Flatten(j: Json): Json
  {
    if !j.JObj? || j.fields.Keys != Responses.DishKeys then j
    else
      var m := j.fields;
      var name := (p: Json) => if p.JObj? && "name" in p.fields then p.fields["name"] else JNull;
      JObj(map["id" := m["id"], "name" := m["name"], "type" := name(m["type"]), "category" := name(m["category"]),
               "nutrition_fact" := m["nutrition"], "tag" := name(m["tag"]), "recipe" := m["recipe"]])
  }

  /** A run of the handler: what it did to the context, and whether it then panicked. */
  datatype Run = Run(effect: Effect, panicked: bool)

  function FlatDishes(dishes: seq<Dish>): (js: seq<Json>)
    ensures |js| == |dishes| && forall i :: 0 <= i < |dishes| ==> js[i] == FlatDish(dishes[i])
  {
    seq(|dishes|, i requires 0 <= i < |dishes| => FlatDish(dishes[i]))
  }

  /**
   * GetDishes as written: a bind failure answers 400 "Invalid request payload"; HandleGRPCError
   * writes 500 "Internal server error" on a backend error but only returns from itself, so the
   * handler then reads the dishes of the reply it did not get, and panics.
   */
  function GetDishesAsWritten(menu: MenuService, bound: Outcome<Int32>): (r: Run)
    ensures r.panicked <==> bound.Ok? && menu.getDishes(bound.value).Err?
    ensures r.panicked ==> r.effect.writes == [Response(StatusInternalServerError, ErrorJson(InternalError))]
  {
    match bound
    case Err(_) => Run(Effect([Response(StatusBadRequest, ErrorJson(InvalidPayload))], [], true), false)
    case Ok(id) =>
      match menu.getDishes(id)
      case Err(_) => Run(Effect([Response(StatusInternalServerError, ErrorJson(InternalError))], [Call.GetDishes(id)], true), true)
      case Ok(dishes) =>
        Run(Effect([Response(StatusOK, JObj(map["dishes" := JArr(FlatDishes(dishes))]))], [Call.GetDishes(id)], true), false)
  }

  /**
   * GetDishes, stopping after the 500: every request gets exactly one response; a bind failure
   * sends nothing to the backend; success is 200 with every dish, flattened, in backend order.
   */
  function GetDishesEffect(menu: MenuService, bound: Outcome<Int32>): (e: Effect)
    ensures |e.writes| == 1 && e.readsBody
    ensures bound.Err? <==> e == Effect([Response(StatusBadRequest, ErrorJson(InvalidPayload))], [], true)
    ensures bound.Ok? ==> e.sent == [Call.GetDishes(bound.value)]
    ensures e.writes[0].status == StatusOK <==> bound.Ok? && menu.getDishes(bound.value).Ok?
    ensures e.writes[0].status == StatusOK ==>
              e.writes[0].body == JObj(map["dishes" := JArr(FlatDishes(menu.getDishes(bound.value).value))])
  {
    match bound
    case Err(_) => Effect([Response(StatusBadRequest, ErrorJson(InvalidPayload))], [], true)
    case Ok(id) =>
      match menu.getDishes(id)
      case Err(_) => Effect([Response(StatusInternalServerError, ErrorJson(InternalError))], [Call.GetDishes(id)], true)
      case Ok(dishes) => Effect([Response(StatusOK, JObj(map["dishes" := JArr(FlatDishes(dishes))]))], [Call.GetDishes(id)], true)
  }

  /** The loop: a list preallocated to the backend's length, slot i set from dish i. */
  method FlattenAll(dishes: seq<Dish>) returns (flat: array<Json>)
    ensures fresh(flat) && flat[..] == FlatDishes(dishes)
  {
    flat := new Json[|dishes|](_ => JNull);
    for i := 0 to |dishes|
      invariant forall k :: 0 <= k < i ==> flat[k] == FlatDish(dishes[k])
    {
      flat[i] := FlatDish(dishes[i]);
    }
  }

  /** The handler as written; `panicked` reports the nil dereference after a backend error. */
  method GetDishesAsWrittenMethod(c: Context, menu: MenuService, bound: Outcome<Int32>) returns (panicked: bool)
    modifies c
    ensures var r := GetDishesAsWritten(menu, bound);
            panicked == r.panicked && c.Snapshot() == old(c.Snapshot()).AfterEffect(r.effect)
  {
    var req := c.ShouldBindJSON(bound);
    if req.Err? {
      c.JSON(StatusBadRequest, ErrorJson(InvalidPayload));
      return false;
    }
    c.Send(Call.GetDishes(req.value));
    var resp := menu.getDishes(req.value);
    if resp.Err? {
      c.JSON(StatusInternalServerError, ErrorJson(InternalError));
      // No return here: the next statement reads the dishes of a missing reply.
      return true;
    }
    var flat := FlattenAll(resp.value);
    c.JSON(StatusOK, JObj(map["dishes" := JArr(flat[..])]));
    return false;
  }

  /** The handler with a return after the 500. */
  method GetDishes(c: Context, menu: MenuService, bound: Outcome<Int32>)
    modifies c
    ensures c.Snapshot() == old(c.Snapshot()).AfterEffect(GetDishesEffect(menu, bound))
  {
    var req := c.ShouldBindJSON(bound);
    if req.Err? {
      c.JSON(StatusBadRequest, ErrorJson(InvalidPayload));
      return;
    }
    c.Send(Call.GetDishes(req.value));
    var resp := menu.getDishes(req.value);
    if resp.Err? {
      c.JSON(StatusInternalServerError, ErrorJson(InternalError));
      return;
    }
    var flat := FlattenAll(resp.value);
    c.JSON(StatusOK, JObj(map["dishes" := JArr(flat[..])]));
  }

  /** The flat shape is the nested response shape with the pairs reduced to their names. */
  lemma FlatIsFlattenedResponse(dish: Dish)
    ensures FlatDish(dish) == Flatten(Responses.ToDishResponse(dish))
  {
  }

  /** The flat shape loses the ids of type, category and tag: changing them leaves it as it was. */
  lemma FlatDropsNestedIds(dish: Dish, typeId: int, categoryId: int, tagId: int)
    ensures FlatDish(dish.(dishType := DishType(typeId, dish.dishType.typeDish),
                           category := Category(categoryId, dish.category.categoryDish),
                           tag := Tag(tagId, dish.tag.tagDish)))
            == FlatDish(dish)
  {
  }

  /** Two dishes the nested response tells apart, and the flat shape does not. */
  lemma FlatDropsNestedIdsWitness()
    ensures var d1 := Dish(1, "soup", DishType(1, "hot"), Category(1, "first"), NutFact(0.0, 0.0, 0.0, 0.0), Tag(1, "vegan"), "boil");
            var d2 := d1.(dishType := DishType(2, "hot"), category := Category(2, "first"), tag := Tag(2, "vegan"));
            d1 != d2 && FlatDish(d1) == FlatDish(d2) && Responses.ToDishResponse(d1) != Responses.ToDishResponse(d2)
  {
    var d1 := Dish(1, "soup", DishType(1, "hot"), Category(1, "first"), NutFact(0.0, 0.0, 0.0, 0.0), Tag(1, "vegan"), "boil");
    var d2 := d1.(dishType := DishType(2, "hot"), category := Category(2, "first"), tag := Tag(2, "vegan"));
    FlatDropsNestedIds(d1, 2, 2, 2);
    Responses.ResponsesInjective(Order(0, 0, [], ""), Order(0, 0, [], ""), d1, d2);
  }

  /**
   * The defect: a backend error makes the handler as written panic after its 500, while the
   * corrected handler answers that 500 and stops. On every other input the two agree.
   */
  lemma BackendErrorPanicsAsWritten(menu: MenuService, bound: Outcome<Int32>)
    ensures bound.Ok? && menu.getDishes(bound.value).Err? ==>
              GetDishesAsWritten(menu, bound).panicked
              && GetDishesEffect(menu, bound).writes == [Response(StatusInternalServerError, ErrorJson(InternalError))]
    ensures !GetDishesAsWritten(menu, bound).panicked ==> GetDishesAsWritten(menu, bound).effect == GetDishesEffect(menu, bound)
  {
  }

  /** A concrete input: any menu service failing for id 0, with the body {"id": 0}. */
  lemma PanicWitness(msg: string)
    ensures GetDishesAsWritten(MenuService(_ => Err(msg)), Ok(0)).panicked
  {
  }
}
