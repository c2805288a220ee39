/**
 * internal/api/response.go: the outbound shapes of a dish and an order. Both are total maps with
 * a fixed key set, and both are lossless: the partial inverses below read every field back.
 */
module Responses {
  import opened Base
  import opened Backend
  import opened Gin

  const OrderKeys: set<string> := {"id", "user_id", "items", "status"}
  const DishKeys: set<string> := {"id", "name", "type", "category", "nutrition", "tag", "recipe"}
  const PairKeys: set<string> := {"id", "name"}
  const NutritionKeys: set<string> := {"calories", "proteins", "fats", "carbohydrates"}

  /** An []int64 as encoding/json writes it. */
  function ItemsJson(items: seq<Int64>): (js: seq<Json>)
    ensures |js| == |items|
    ensures forall i :: 0 <= i < |items| ==> js[i] == JInt(items[i])
  {
    seq(|items|, i requires 0 <= i < |items| => JInt(items[i]))
  }

  /** toOrderResponse: exactly the keys id, user_id, items and status. */
  function ToOrderResponse(order: Order): (j: Json)
    ensures j.JObj? && j.fields.Keys == OrderKeys
  {
    JObj(map["id" := JInt(order.id), "user_id" := JInt(order.userId),
             "items" := JArr(ItemsJson(order.items)), "status" := JStr(order.status)])
  }

  /** A {"id", "name"} pair, as the type, category and tag of a dish are written. */
  function PairJson(id: int, name: string): (j: Json)
    ensures j.JObj? && j.fields.Keys == PairKeys
  {
    JObj(map["id" := JInt(id), "name" := JStr(name)])
  }

  function NutritionJson(n: NutFact): (j: Json)
    ensures j.JObj? && j.fields.Keys == NutritionKeys
  {
    JObj(map["calories" := JFloat(n.calories), "proteins" := JFloat(n.proteins),
             "fats" := JFloat(n.fats), "carbohydrates" := JFloat(n.carbohydrates)])
  }

  /**
   * toDishResponse: exactly the keys id, name, type, category, nutrition, tag and recipe; type,
   * category and tag nested as {id, name} pairs, nutrition as the four facts.
   */
  function ToDishResponse(dish: Dish): (j: Json)
    ensures j.JObj? && j.fields.Keys == DishKeys
    ensures j.fields["type"].JObj? && j.fields["type"].fields.Keys == PairKeys
    ensures j.fields["category"].JObj? && j.fields["category"].fields.Keys == PairKeys
    ensures j.fields["tag"].JObj? && j.fields["tag"].fields.Keys == PairKeys
    ensures j.fields["nutrition"].JObj? && j.fields["nutrition"].fields.Keys == NutritionKeys
  {
    JObj(map[
      "id" := JInt(dish.id),
      "name" := JStr(dish.name),
      "type" := PairJson(dish.dishType.id, dish.dishType.typeDish),
      "category" := PairJson(dish.category.id, dish.category.categoryDish),
      "nutrition" := NutritionJson(dish.nutFact),
      "tag" := PairJson(dish.tag.id, dish.tag.tagDish),
      "recipe" := JStr(dish.recipe)])
  }

  /** The list the order handlers answer under "orders": one shape per order, in backend order. */
  function OrdersJson(orders: seq<Order>): (js: seq<Json>)
    ensures |js| == |orders|
  {
    seq(|orders|, i requires 0 <= i < |orders| => ToOrderResponse(orders[i]))
  }

  /** The list the dish handlers answer under "dishes": one shape per dish, in backend order. */
  function DishesJson(dishes: seq<Dish>): (js: seq<Json>)
    ensures |js| == |dishes|
  {
    seq(|dishes|, i requires 0 <= i < |dishes| => ToDishResponse(dishes[i]))
  }

  /** Appending one order to the list appends its shape: what the handlers' append loops rely on. */
  lemma OrdersJsonSnoc(orders: seq<Order>, i: nat)
    requires i < |orders|
    ensures OrdersJson(orders[..i + 1]) == OrdersJson(orders[..i]) + [ToOrderResponse(orders[i])]
  {
    assert orders[..i + 1][..i] == orders[..i];
  }

  /** Appending one dish to the list appends its shape. */
  lemma DishesJsonSnoc(dishes: seq<Dish>, i: nat)
    requires i < |dishes|
    ensures DishesJson(dishes[..i + 1]) == DishesJson(dishes[..i]) + [ToDishResponse(dishes[i])]
  {
    assert dishes[..i + 1][..i] == dishes[..i];
  }

  // Reading the shapes back.

  function IntOf(j: Json): Option<int>
  {
    if j.JInt? then Some(j.i) else None
  }

  function StrOf(j: Json): Option<string>
  {
    if j.JStr? then Some(j.s) else None
  }

  function FloatOf(j: Json): Option<real>
  {
    if j.JFloat? then Some(j.f) else None
  }

  function UInt64Of(j: Json): Option<UInt64>
  {
    if j.JInt? && 0 <= j.i < 0x1_0000_0000_0000_0000 then Some(j.i) else None
  }

  function ItemsOf(js: seq<Json>): Option<seq<Int64>>
  {
    if js == [] then Some([])
    else if js[0].JInt? && -0x8000_0000_0000_0000 <= js[0].i < 0x8000_0000_0000_0000 then
      match ItemsOf(js[1..])
      case None => None
      case Some(rest) => Some([js[0].i as Int64] + rest)
    else None
  }

  /** Inverse of toOrderResponse on its image. */
  function OrderOf(j: Json): Option<Order>
  {
    if !j.JObj? || j.fields.Keys != OrderKeys then None
    else
      var m := j.fields;
      match (UInt64Of(m["id"]), UInt64Of(m["user_id"]), StrOf(m["status"]))
      case (Some(id), Some(userId), Some(status)) =>
        if !m["items"].JArr? then None
        else
          (match ItemsOf(m["items"].elems)
           case None => None
           case Some(items) => Some(Order(id, userId, items, status)))
      case _ => None
  }

  function PairOf(j: Json): Option<(int, string)>
  {
    if !j.JObj? || j.fields.Keys != PairKeys then None
    else
      match (IntOf(j.fields["id"]), StrOf(j.fields["name"]))
      case (Some(id), Some(name)) => Some((id, name))
      case _ => None
  }

  function NutritionOf(j: Json): Option<NutFact>
  {
    if !j.JObj? || j.fields.Keys != NutritionKeys then None
    else
      var m := j.fields;
      match (FloatOf(m["calories"]), FloatOf(m["proteins"]), FloatOf(m["fats"]), FloatOf(m["carbohydrates"]))
      case (Some(c), Some(p), Some(f), Some(h)) => Some(NutFact(c, p, f, h))
      case _ => None
  }

  /** Inverse of toDishResponse on its image. */
  function DishOf(j: Json): Option<Dish>
  {
    if !j.JObj? || j.fields.Keys != DishKeys then None
    else
      var m := j.fields;
      match (IntOf(m["id"]), StrOf(m["name"]), PairOf(m["type"]), PairOf(m["category"]),
             NutritionOf(m["nutrition"]), PairOf(m["tag"]), StrOf(m["recipe"]))
      case (Some(id), Some(name), Some(t), Some(c), Some(n), Some(g), Some(recipe)) =>
        Some(Dish(id, name, DishType(t.0, t.1), Category(c.0, c.1), n, Tag(g.0, g.1), recipe))
      case _ => None
  }

  lemma {:induction false} ItemsRoundTrip(items: seq<Int64>)
    ensures ItemsOf(ItemsJson(items)) == Some(items)
  {
    if items != [] {
      assert ItemsJson(items)[1..] == ItemsJson(items[1..]);
      ItemsRoundTrip(items[1..]);
      assert [items[0]] + items[1..] == items;
    }
  }

  /** toOrderResponse drops nothing: the order, items in their order, is read back from its shape. */
  lemma OrderResponseLossless(order: Order)
    ensures OrderOf(ToOrderResponse(order)) == Some(order)
  {
    ItemsRoundTrip(order.items);
  }

  /** toDishResponse drops nothing: every field of the dish, nested ids included, is read back. */
  lemma DishResponseLossless(dish: Dish)
    ensures DishOf(ToDishResponse(dish)) == Some(dish)
  {
  }

  /** Hence two orders with the same shape are the same order, and likewise for dishes. */
  lemma ResponsesInjective(o1: Order, o2: Order, d1: Dish, d2: Dish)
    ensures ToOrderResponse(o1) == ToOrderResponse(o2) ==> o1 == o2
    ensures ToDishResponse(d1) == ToDishResponse(d2) ==> d1 == d2
  {
    OrderResponseLossless(o1);
    OrderResponseLossless(o2);
    DishResponseLossless(d1);
    DishResponseLossless(d2);
  }
}
