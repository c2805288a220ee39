/**
 * The two backend services (menu and orders) as the gateway sees them over gRPC: the message
 * types it reads and writes, the requests it sends, and each remote procedure as a function from
 * request to reply or error. The services themselves are not modelled: a service value is any
 * such set of answers.
 */
module Backend {
  import opened Base

  datatype Order = Order(id: UInt64, userId: UInt64, items: seq<Int64>, status: string)

  /** The nested {id, label} messages of a dish. Their ids are copied, never computed with. */
  datatype DishType = DishType(id: int, typeDish: string)
  datatype Category = Category(id: int, categoryDish: string)
  datatype Tag = Tag(id: int, tagDish: string)

  /** Nutrition facts: float64 values that the gateway only copies. */
  datatype NutFact = NutFact(calories: real, proteins: real, fats: real, carbohydrates: real)

  datatype Dish = Dish(id: int, name: string, dishType: DishType, category: Category,
                       nutFact: NutFact, tag: Tag, recipe: string)

  datatype CreateOrderRequest = CreateOrderRequest(userId: UInt64, items: seq<Int64>)

  /** UpdateOrderRequest: proto3 fields with no presence bit, so a field left unset holds its zero value. */
  datatype UpdateOrderRequest = UpdateOrderRequest(id: UInt64, userId: UInt64, items: seq<Int64>, status: string)

  /** One request sent to a backend, as recorded in the order it was sent. */
  datatype Call =
    | GetDishes(dishId: Int32)
    | CreateOrder(create: CreateOrderRequest)
    | GetOrder(orderId: UInt64)
    | UpdateOrder(update: UpdateOrderRequest)
    | DeleteOrder(deleteId: UInt64)
    | GetUserOrders(ownerId: UInt64)
  {
    /** The requests that change the order store. */
    predicate IsMutation() { CreateOrder? || UpdateOrder? || DeleteOrder? }
  }

  /** DishService: GetDishes(DishRequest{Id}) answers a list of dishes (Id 0 is the id-less request). */
  datatype MenuService = MenuService(getDishes: Int32 -> Outcome<seq<Dish>>)

  /** OrderService; DeleteOrder answers the reply's Deleted flag. */
  datatype OrderService = OrderService(
    createOrder: CreateOrderRequest -> Outcome<Order>,
    getOrder: UInt64 -> Outcome<Order>,
    updateOrder: UpdateOrderRequest -> Outcome<Order>,
    deleteOrder: UInt64 -> Outcome<bool>,
    getUserOrders: UInt64 -> Outcome<seq<Order>>)

  /** The gateway's Handler: the two service clients it was built with, never changed afterwards. */
  datatype Handler = Handler(menuClient: MenuService, orderClient: OrderService)
}
