# bff-service: request decisions of the gateway

bff-service is an HTTP gateway written in Go on gin. It sits in front of two gRPC backends: a menu service (dishes) and an order service. This project models how the gateway turns one inbound request, plus the backends' answers, into exactly one HTTP response. It also records which backend requests that response cost. The model covers:

- **Authorization headers.**
  - The bearer-token middleware in `internal/api/middleware.go` and its inline twin in `internal/api/maddleware.go`. Both split the header on spaces.
  - The older prefix-stripping middleware in `api/auth_middleware.go`.
- **Identity and ownership.** The helpers in `internal/api/auth_handlers.go` (`parseIDParam`, `bindJSON`, `getUserID`, `getUserIDFromToken`, `validateUserAccess`) and `getValidatedOrder`.
- **The endpoints.**
  - The order and dish handlers of `internal/api/order_handlers.go` and `internal/api/dish_handlers.go`.
  - The competing revision of the same handlers in `internal/api/handler.go`.
  - The older flat menu endpoint in `api/menu.go`.
- **Translation.** The outbound shapes in `internal/api/response.go`, and the partial-update request built by `updateOrder`.
- **Composition.** The middleware followed by a handler, as gin runs a route.

Each duplicate declaration is its own module. Lemmas state where the duplicates agree and where they diverge:

- `InlineMiddleware` next to `Middleware`.
- `HandlerRevision` next to `OrderHandlers` and `DishHandlers`.
- `LegacyAuth` next to `Middleware`.

## How it is modelled

- **Context.** A gin context is the class `Gin.Context`. Its fields are updated in place:
  - `writes`: every `c.JSON`.
  - `aborted`.
  - `keys`: every `c.Set`.
  - `bodyRead`: whether `ShouldBindJSON` was consulted.
  - `sent`: the backend requests issued, in order.
  - `nextCalled`.
- **Handlers as methods.** Every handler and helper is a method on that context. Its `ensures` says the context afterwards is the context before, with an effect applied. The effect is a `Reply`, `Step` or `Effect` value computed by a pure function of the request and the backends. The properties are proved about those functions.
- **Backends.** `Backend.OrderService` and `Backend.MenuService` hold one function per RPC. Each answers `Ok(value)` or `Err(message)`.
- **JWT library.** `Jwt.Library` is also an oracle: `decode` yields the token's signing method and claims, and `verify` decides whether a key verifies it.
- **Body binding.** What gin makes of a request body is a parameter `bound: Outcome<T>`. Where the source relies on the `binding:"required,min=1"` tags, the rule is stated explicitly. The validator's error text is a parameter.
- **Integer parsing.** `strconv.ParseInt` and `strconv.ParseUint` are modelled in base 10, with their bit-size range checks. `strings.Split` and `strings.TrimPrefix` are modelled exactly.

## Model

| member | source | states |
|---|---|---|
| Middleware.ExtractTokenFromHeader | internal/api/middleware.go:35-47 | accepted exactly when the header is "Bearer " followed by a space-free token, which is returned; an empty header fails with "Authorization header is required", any other header with "Invalid authorization header format" |
| Middleware.KeyFor | internal/api/middleware.go:50-55 | the key function yields the secret exactly for HMAC-family tokens, and ErrSignatureInvalid otherwise |
| Middleware.Decide | internal/api/middleware.go:12-33 | the request is admitted exactly when extraction, parsing and validation all succeed; admitted claims are map claims |
| Middleware.ValidateToken | internal/api/middleware.go:58-64 | returns true exactly for map claims on a valid token; only then stores the claims under "jwtClaims", and otherwise changes nothing |
| Middleware.AuthMiddleware | internal/api/middleware.go:12-33 | the context afterwards is the middleware's decision applied to it |
| Middleware.ExtractRoundTrip | internal/api/middleware.go:41-46 | "Bearer " + t yields exactly t when t has no space, including the empty token; otherwise a format error |
| Middleware.NearMissesRejected | internal/api/middleware.go:41-44 | "bearer x", "Bearer" and "Bearer  x" are all format errors |
| Middleware.NonHmacRejectedBeforeVerification | internal/api/middleware.go:49-56 | a non-HMAC token fails with ErrSignatureInvalid whatever the secret and whatever verification would answer |
| Middleware.RejectionMessages | internal/api/middleware.go:14-29 | the 401 message names the first failing stage: the header error, then "Invalid token: " + the parse error, then "Invalid token" |
| Middleware.ContinuesOnlyOnSuccess | internal/api/middleware.go:14-31 | Next is called exactly on admission, with the claims stored and nothing written; otherwise the chain is aborted with exactly one 401 and nothing stored |
| InlineMiddleware.Decide | internal/api/maddleware.go:11-53 | admitted claims are map claims; an empty header is refused with "Authorization header is required" |
| InlineMiddleware.AuthMiddleware | internal/api/maddleware.go:11-53 | the closure leaves the context as its decision applied to it |
| InlineMiddleware.SameAsMiddleware | internal/api/maddleware.go:11-53 | decides every header, under every library outcome, exactly as internal/api/middleware.go does |
| InlineMiddleware.ParsesSecondPart | internal/api/maddleware.go:21-51 | with the header "Bearer " + t for a space-free t, the verdict is the parse of exactly t: its error after "Invalid token: ", "Invalid token" for inadmissible claims, or admission with the claims |
| AuthHandlers.ParseIdParamReply | internal/api/auth_handlers.go:13-20 | proceeds with the parsed value exactly when strconv.ParseInt accepts the parameter; otherwise 400 "Invalid <param> format" |
| AuthHandlers.ParseIdParam | internal/api/auth_handlers.go:13-20 | returns (value, true) and writes nothing, or (0, false) after the 400 |
| AuthHandlers.ParseIdParamRoundTrip | internal/api/auth_handlers.go:13-19 | every int32 written in decimal is read back by a 32-bit parseIDParam |
| AuthHandlers.BindJsonReply | internal/api/auth_handlers.go:22-28 | proceeds with the bound value exactly when binding succeeded; otherwise 400 with the binding error's text |
| AuthHandlers.BindJson | internal/api/auth_handlers.go:22-28 | returns true exactly when binding succeeded; writes only the 400 otherwise |
| AuthHandlers.GetUserIdReply | internal/api/auth_handlers.go:30-50 | proceeds only with an id the stored claims name; when it refuses, no id is named, and the answer is a 401 |
| AuthHandlers.GetUserId | internal/api/auth_handlers.go:30-50 | returns the claims' id, or (0, false) after one 401 |
| AuthHandlers.GetUserIdOrder | internal/api/auth_handlers.go:31-47 | missing claims give "Authentication required", then non-map claims "Invalid token", then a missing or non-numeric id "User ID not found" |
| AuthHandlers.GetUserIdFromToken | internal/api/auth_handlers.go:52-69 | an id the claims name, or one of the three error messages |
| AuthHandlers.UserIdVariantsAgree | internal/api/auth_handlers.go:30-68 | getUserID and getUserIDFromToken succeed on the same claims with the same id, and fail at the same check |
| AuthHandlers.ValidateUserAccessReply | internal/api/auth_handlers.go:71-89 | proceeds exactly when the path id parses and is the id the claims name, and then with that id; every refusal is 401, 400 or 403 |
| AuthHandlers.ValidateUserAccess | internal/api/auth_handlers.go:71-89 | returns the user id, or (0, false) after one refusal |
| AuthHandlers.ValidateUserAccessOrder | internal/api/auth_handlers.go:72-86 | the identity failure (401) is checked before "Invalid user ID" (400), which is checked before "Access denied" (403) |
| AuthHandlers.OwnIdAdmitted | internal/api/auth_handlers.go:77-88 | a user naming their own id in decimal is let through with that id |
| OrderHandlers.BindCreateRequest | internal/api/order_handlers.go:22-27 | the body binds exactly when it decodes and items is present with at least one element; the bound items are the decoded ones |
| OrderHandlers.UpdateRequestOf | internal/api/order_handlers.go:112-122 | the request carries the order id and user id 0; items and status are copied when present, and left at their zero values when absent |
| OrderHandlers.CreateStep | internal/api/order_handlers.go:100-110 | sends CreateOrder for this user and these items; proceeds with the backend's order, or answers 500 |
| OrderHandlers.SendCreateOrder | internal/api/order_handlers.go:100-110 | the context afterwards is createOrder's step applied to it |
| OrderHandlers.UpdateStep | internal/api/order_handlers.go:112-131 | sends exactly UpdateRequestOf(orderId, patch); proceeds with the backend's order, or answers 500 with the backend's message |
| OrderHandlers.SendUpdateOrder | internal/api/order_handlers.go:112-131 | builds the request field by field and leaves the context as updateOrder's step applied to it |
| OrderHandlers.DeleteStep | internal/api/order_handlers.go:133-148 | proceeds exactly when the backend reports the order deleted; 500 on error; 404 "Order not found" when the order was not deleted |
| OrderHandlers.SendDeleteOrder | internal/api/order_handlers.go:133-148 | the context afterwards is deleteOrder's step applied to it |
| OrderHandlers.GetValidatedOrderStep | internal/api/order_handlers.go:150-175 | proceeds with the backend's order exactly when the caller owns it; the only backend request is GetOrder for the parsed id; refusals in order: getUserID's 401 with nothing sent, then 400 "Invalid order ID" with nothing sent, then 404 "Order not found" on any lookup error, then 403 "Access denied" for another user's order |
| OrderHandlers.GetValidatedOrder | internal/api/order_handlers.go:150-175 | the context afterwards is getValidatedOrder's step applied to it |
| OrderHandlers.CreateOrderEffect | internal/api/order_handlers.go:16-35 | one response; once identity and binding succeed, exactly one CreateOrder is sent, for the token's user and the bound items; 201 exactly when the backend creates, with the created order's shape; 500 with the backend's message when it fails; a body that fails to bind gives 400 with the binding error's text, with nothing sent; every request sent creates an order owned by the token's user |
| OrderHandlers.CreateOrder | internal/api/order_handlers.go:16-35 | the context afterwards is CreateOrder's effect applied to it |
| OrderHandlers.CreatedOrdersOwnedAndNonEmpty | internal/api/order_handlers.go:22-29 | every order the gateway asks to create has at least one item and belongs to the caller |
| OrderHandlers.GetOrderEffect | internal/api/order_handlers.go:37-43 | one response; 200 exactly for the order's owner, with that order's shape; nothing is changed on the backend |
| OrderHandlers.GetOrder | internal/api/order_handlers.go:37-43 | the context afterwards is GetOrder's effect applied to it |
| OrderHandlers.UpdateOwnedEffect | internal/api/order_handlers.go:51-61 | once ownership is shown, the body is read; the update is sent exactly when it binds; a bind error gives 400 with its text, a backend error 500 with the backend's message, and success 200 with the updated order in its response shape |
| OrderHandlers.UpdateOwned | internal/api/order_handlers.go:51-61 | the context afterwards is the owned-order part of UpdateOrder applied to it |
| OrderHandlers.UpdateOrderEffect | internal/api/order_handlers.go:45-62 | one response; the body is read exactly when the caller owns the order |
| OrderHandlers.UpdateOrder | internal/api/order_handlers.go:45-62 | the context afterwards is UpdateOrder's effect applied to it |
| OrderHandlers.UpdateMutatesOnlyOwnedOrder | internal/api/order_handlers.go:46-56 | an update is sent only for an order the caller owns, and it carries that order's id and the bound patch |
| OrderHandlers.DeleteOwnedEffect | internal/api/order_handlers.go:70-74 | once ownership is shown, exactly one DeleteOrder is sent; 200 "Order deleted successfully" exactly when the backend deleted |
| OrderHandlers.DeleteOwned | internal/api/order_handlers.go:70-74 | the context afterwards is the owned-order part of DeleteOrder applied to it |
| OrderHandlers.DeleteOrderEffect | internal/api/order_handlers.go:64-75 | one response; 200 "Order deleted successfully" exactly when the caller owns the order and the backend deleted it; a delete is sent only for the caller's own order |
| OrderHandlers.DeleteOrder | internal/api/order_handlers.go:64-75 | the context afterwards is DeleteOrder's effect applied to it |
| OrderHandlers.NotFoundVersusForbidden | internal/api/order_handlers.go:163-171 | 404 exactly when the lookup failed, 403 exactly when the order belongs to someone else; after either, update and delete have sent only the lookup |
| OrderHandlers.NoIdentityNoCalls | internal/api/order_handlers.go:17-20 | without an identity, the four identity-checked handlers write getUserID's 401 and nothing else, and do not read the body or call a backend |
| OrderHandlers.UpdateConflatesZeroValues | internal/api/order_handlers.go:112-122 | two patches give the same request exactly when they agree once empty fields count as absent |
| OrderHandlers.GetUserOrdersEffect | internal/api/order_handlers.go:77-98 | one response; without a token id, the 401 carries getUserIDFromToken's message and nothing is sent; otherwise GetUserOrders is sent for the token's id; 200 exactly when the backend answers, and a backend error gives 500 with its message |
| OrderHandlers.CollectOrders | internal/api/order_handlers.go:92-95 | the append loop produces one response shape per order, in order |
| OrderHandlers.GetUserOrders | internal/api/order_handlers.go:77-98 | the context afterwards is GetUserOrders' effect applied to it |
| OrderHandlers.ListingShowsEveryOrder | internal/api/order_handlers.go:92-97 | the body is {"orders": list}, one element per backend order, and each element reads back as that order |
| DishHandlers.GetDishStep | internal/api/dish_handlers.go:32-45 | asks the menu for this id; 500 with the backend's error, 404 "Dish not found" on an empty list, otherwise proceeds with the first dish |
| DishHandlers.FetchDish | internal/api/dish_handlers.go:32-45 | the context afterwards is getDish's step applied to it |
| DishHandlers.GetAllDishesStep | internal/api/dish_handlers.go:47-60 | sends the id-less request; proceeds exactly on success, with one shape per dish, and each shape reads back as that dish |
| DishHandlers.CollectDishes | internal/api/dish_handlers.go:54-57 | the append loop produces one response shape per dish, in order |
| DishHandlers.FetchAllDishes | internal/api/dish_handlers.go:47-60 | the context afterwards is getAllDishes' step applied to it |
| DishHandlers.GetDishEffect | internal/api/dish_handlers.go:10-22 | a non-int32 id gives 400 "Invalid id format" with no backend call; otherwise exactly that id is requested; 500 with the backend's message on an error; 404 "Dish not found" on an empty list; 200 exactly when the list is non-empty, with the first dish's shape |
| DishHandlers.GetDish | internal/api/dish_handlers.go:10-22 | the context afterwards is GetDish's effect applied to it |
| DishHandlers.GetAllDishesEffect | internal/api/dish_handlers.go:24-30 | one response; 200 with every dish under "dishes" exactly when the menu answers |
| DishHandlers.GetAllDishes | internal/api/dish_handlers.go:24-30 | the context afterwards is GetAllDishes' effect applied to it |
| DishHandlers.GetDishAsksForTheId | internal/api/dish_handlers.go:11-16 | any int32 written in decimal is requested from the menu as exactly that id |
| Responses.ToOrderResponse | internal/api/response.go:26-33 | exactly the keys id, user_id, items and status |
| Responses.ToDishResponse | internal/api/response.go:9-24 | exactly the keys id, name, type, category, nutrition, tag and recipe; type, category and tag are {id, name} pairs; nutrition holds the four facts |
| Responses.PairJson | internal/api/response.go:13-14 | exactly the keys id and name |
| Responses.NutritionJson | internal/api/response.go:15-20 | exactly the keys calories, proteins, fats and carbohydrates |
| Responses.ItemsJson | internal/api/response.go:30 | one number per item, in order |
| Responses.ItemsRoundTrip | internal/api/response.go:30 | the items are read back unchanged and in order |
| Responses.OrdersJson | internal/api/order_handlers.go:92-95 | one shape per order |
| Responses.DishesJson | internal/api/dish_handlers.go:54-57 | one shape per dish |
| Responses.OrdersJsonSnoc | internal/api/order_handlers.go:93-95 | appending an order appends its shape |
| Responses.DishesJsonSnoc | internal/api/dish_handlers.go:55-57 | appending a dish appends its shape |
| Responses.OrderResponseLossless | internal/api/response.go:26-33 | the order is read back from its shape |
| Responses.DishResponseLossless | internal/api/response.go:9-24 | the dish, nested ids included, is read back from its shape |
| Responses.ResponsesInjective | internal/api/response.go:9-33 | two orders, or two dishes, with the same shape are equal |
| HandlerRevision.ToDishResponse | internal/api/handler.go:63-78 | exactly the dish keys of internal/api/response.go |
| HandlerRevision.ToOrderResponse | internal/api/handler.go:195-202 | exactly the order keys of internal/api/response.go |
| HandlerRevision.SameResponseShapes | internal/api/handler.go:63-78 | both files build the same dish and order maps |
| HandlerRevision.GetDishEffect | internal/api/handler.go:25-46 | 400 "Invalid dish ID format" exactly when the id is not an int32; 500 with the backend's message on an error; 404 "Dish not found" on an empty list; 200 only with the first dish of a non-empty list |
| HandlerRevision.GetDish | internal/api/handler.go:25-46 | the context afterwards is this GetDish's effect applied to it |
| HandlerRevision.GetDishDivergesOnlyInMessage | internal/api/handler.go:26-45 | on a parsable id both GetDish handlers behave the same; on a bad id both answer 400, with different messages |
| HandlerRevision.GetAllDishesEffect | internal/api/handler.go:48-61 | sends the id-less request; 200 exactly when the menu answers |
| HandlerRevision.GetAllDishes | internal/api/handler.go:48-61 | the context afterwards is this GetAllDishes' effect applied to it |
| HandlerRevision.GetAllDishesAgrees | internal/api/handler.go:48-61 | both GetAllDishes handlers behave the same |
| HandlerRevision.BindCreateBody | internal/api/handler.go:82-91 | binds exactly when user_id is non-zero and items is present and non-empty; the request carries both unchanged |
| HandlerRevision.CreateOrderEffect | internal/api/handler.go:82-103 | nothing is sent exactly when binding fails, and the answer is 400 with the bind text; otherwise the bound request is sent as is; a backend error gives 500 with its message, success 201 with the created order in its response shape |
| HandlerRevision.CreateOrder | internal/api/handler.go:82-103 | the context afterwards is this CreateOrder's effect applied to it |
| HandlerRevision.RevisionTrustsClientOwner | internal/api/handler.go:83-102 | with no claims at all, this revision creates an order for whatever non-zero user the body names, while the current handler sends nothing |
| HandlerRevision.GetOrderEffect | internal/api/handler.go:105-121 | 400 "Invalid order ID format" exactly on a bad id; otherwise GetOrder is sent, any backend error is 500, and any found order is served with 200 |
| HandlerRevision.GetOrder | internal/api/handler.go:105-121 | the context afterwards is this GetOrder's effect applied to it |
| HandlerRevision.GetOrderDivergence | internal/api/handler.go:112-120 | a backend error is 500 here and 404 in the current handler; another user's order is 200 here and 403 there |
| HandlerRevision.UpdateRequestOf | internal/api/handler.go:141-150 | the request carries the path id; user_id, items and status are copied when present, and zero otherwise |
| HandlerRevision.BuildUpdateRequest | internal/api/handler.go:141-150 | the request built field by field is UpdateRequestOf |
| HandlerRevision.UpdateRequestsAgree | internal/api/handler.go:141-150 | without a user_id in the body, both revisions build the same update request |
| HandlerRevision.UpdateOrderEffect | internal/api/handler.go:123-159 | the body is read exactly when the id parses; 400 "Invalid order ID format" on a bad id, 400 with the bind text on a bad body; the update is sent exactly when both bind, and it is UpdateRequestOf; a backend error gives 500 with its message, success 200 with the updated order in its response shape |
| HandlerRevision.UpdateOrder | internal/api/handler.go:123-159 | the context afterwards is this UpdateOrder's effect applied to it |
| HandlerRevision.DeleteOrderEffect | internal/api/handler.go:161-181 | 400 "Invalid order ID format" on a bad id, and a request is sent exactly when the id parses; 500 with the backend's message on an error; 200 "Order deleted successfully" exactly when the backend deleted that id; 404 {"message": "Order not found"} when it did not |
| HandlerRevision.DeleteOrder | internal/api/handler.go:161-181 | the context afterwards is this DeleteOrder's effect applied to it |
| HandlerRevision.DeleteAgreesOnOwnedOrders | internal/api/handler.go:161-181 | for an order its caller owns, both DeleteOrder handlers write the same response |
| HandlerRevision.GetUserOrdersEffect | internal/api/handler.go:183-193 | never calls a backend or reads the body; 400 "Invalid user ID format" when user_id does not parse, and 501 "Not implemented" exactly when it does |
| HandlerRevision.GetUserOrders | internal/api/handler.go:183-193 | the context afterwards is this GetUserOrders' effect applied to it |
| HandlerRevision.UserOrdersNeverListed | internal/api/handler.go:183-193 | for a caller the token identifies, this revision never asks the order service and never answers 200, while the current GetUserOrders asks for exactly that user |
| LegacyAuth.Decide | api/auth_middleware.go:11-33 | admitted exactly when the header starts with "Bearer ", with the rest as the token; otherwise "Authorization header is required" for an empty header and "Invalid Authorization header format" for any other |
| LegacyAuth.AuthMiddleware | api/auth_middleware.go:11-33 | a rejection writes one 401 and aborts; an admission stores the token under "user_token" and calls Next |
| LegacyAuth.RoundTrip | api/auth_middleware.go:22-23 | "Bearer " + t yields exactly t for every t, spaces and the empty token included |
| LegacyAuth.AcceptsWhatSplitRefuses | api/auth_middleware.go:22 | "Bearer a b" is admitted here with the token "a b" and refused by the split-based parser |
| LegacyAuth.SplitParserStricter | api/auth_middleware.go:22-27 | whatever the split-based parser extracts, this middleware extracts too |
| LegacyAuth.MessagesCompared | api/auth_middleware.go:15-25 | the empty-header message is the same in both middlewares; the format messages differ in case |
| LegacyMenu.FlatDish | api/menu.go:32-45 | exactly seven keys; type, category and tag reduced to their labels; nutrition under "nutrition_fact" |
| LegacyMenu.FlatDishes | api/menu.go:30-46 | one flat dish per backend dish, position i from dish i |
| LegacyMenu.FlattenAll | api/menu.go:30-46 | the preallocated array filled by the loop holds the flat dishes, in order |
| LegacyMenu.FlatIsFlattenedResponse | api/menu.go:32-45 | the flat shape is the nested response shape with each pair reduced to its name |
| LegacyMenu.FlatDropsNestedIds | api/menu.go:35-43 | for every dish, changing the ids of its type, category and tag leaves its flat shape unchanged |
| LegacyMenu.FlatDropsNestedIdsWitness | api/menu.go:35-43 | two dishes that the nested response tells apart have the same flat shape |
| LegacyMenu.GetDishesAsWritten | api/menu.go:18-49 | panics exactly when binding succeeds and the menu fails, after writing the 500 |
| LegacyMenu.GetDishesAsWrittenMethod | api/menu.go:18-49 | reports the panic and leaves the context as the handler as written does |
| LegacyMenu.BackendErrorPanicsAsWritten | api/menu.go:28-30 | a backend error panics as written, while the corrected handler answers the 500 and stops; otherwise the two agree |
| LegacyMenu.PanicWitness | api/menu.go:28-30 | a concrete failing request: the body {"id": 0} against a failing menu |
| LegacyMenu.GetDishesEffect | api/menu.go:18-49 | one response; a bind failure is 400 "Invalid request payload" with no backend call; 200 exactly when the menu answers, with every dish flattened |
| LegacyMenu.GetDishes | api/menu.go:18-49 | the corrected handler leaves the context as GetDishesEffect says |
| Pipeline.HandlerEffect | internal/api/router.go:25-31 | every route answers with exactly one response |
| Pipeline.Dispatch | internal/api/router.go:15-32 | running a route's handler applies its effect |
| Pipeline.Serve | internal/api/middleware.go:12-33 | the middleware, then the handler unless the middleware aborted |
| Pipeline.RejectionStopsEverything | internal/api/middleware.go:14-29 | a rejected request gets exactly one 401; no handler runs, no backend is called, no body is read |
| Pipeline.AdmittedIdBecomesOwner | internal/api/order_handlers.go:17-29 | behind the middleware, an admitted "id" claim is the only owner CreateOrder sends and the only user GetUserOrders lists |
| Pipeline.UnauthenticatedOrderRoutes | internal/api/router.go:25-31 | with the routes registered without middleware, every order handler answers 401 and calls no backend |
| Strconv.ParseUint | internal/api/order_handlers.go:157 | strconv.ParseUint in base 10 accepts exactly a non-empty run of digits below 2^bits, and yields its value |
| Strconv.ParseUint64 | internal/api/auth_handlers.go:77 | accepts exactly a non-empty run of digits whose value fits in 64 bits |
| Strconv.ParseInt | internal/api/auth_handlers.go:14 | any value accepted lies in the signed range of the bit size |
| Strconv.ParseUint64Format | internal/api/order_handlers.go:157 | every uint64 written in decimal is read back |
| Strconv.ParseInt32Format | internal/api/dish_handlers.go:11 | every int32 written in decimal, negative ones included, is read back |
| Strconv.ParseInt32Range | internal/api/dish_handlers.go:16 | a 32-bit parse yields only int32 values, so the int32 conversion is exact |
| Strconv.SignHandling | internal/api/auth_handlers.go:14-15 | the unsigned parse refuses any sign and the empty string; the signed parse admits one leading '+' or '-' |
| Strconv.RangeLimits | internal/api/auth_handlers.go:77-78 | the first value past each range is refused |
| Strings.Split | internal/api/middleware.go:41 | one more piece than separators, none containing the separator, and joining them back gives the header |
| Strings.SplitJoin | internal/api/middleware.go:41-46 | splitting joined separator-free pieces gives the pieces back |
| Strings.TrimPrefix | api/auth_middleware.go:22 | removes the prefix exactly when the string starts with it, and leaves the string unchanged otherwise |

## Where the code and the intended design differ

In each case below the model follows the code:

- **Update cannot tell absent from empty.** The update request cannot tell an absent field from an empty one. So a client cannot clear an order's items or status (`OrderHandlers.UpdateConflatesZeroValues`). The intended design asks for a presence signal per field.
- **Any lookup error is a 404.** `getValidatedOrder` answers 404 on any lookup error, transport failures included. It never answers 500 there (internal/api/order_handlers.go:163-166).
- **Backend errors reach the client.** Most 500 responses carry the backend's own error text, where the design says raw backend errors never reach the client.
- **The order routes are unauthenticated.** `internal/api/router.go` registers the order routes without the middleware. So in the code as routed, every order handler answers 401 (`Pipeline.UnauthenticatedOrderRoutes`). `GetAllDishes` and `GetUserOrders` are not routed at all.
- **The revision does not check ownership.** The revision in `internal/api/handler.go` takes the owner of a new order from the body and checks no ownership at all. Its `GetUserOrders` never lists anything: it answers 400 "Invalid user ID format" for a user_id that does not parse, and 501 "Not implemented" otherwise.

## Left out

- The JWT library, signature verification and claim decoding are an oracle (`Jwt.Library`). Only the key function's HMAC check is modelled.
- The JWT oracle is more general than golang-jwt v4's `jwt.Parse`. It may return non-map claims, or a successful parse of a token that is not valid. The real library always builds map claims and reports an invalid token as an error. So the "Invalid token" rejection after a successful parse is reachable in the model, and possibly not in the running code.
- The float64 "id" claim: the model takes a numeric claim as a uint64 directly. The truncating `uint64(float64)` conversion (internal/api/auth_handlers.go:49, :68) is not modelled.
- Nutrition facts are opaque reals; float formatting is not modelled.
- gin's JSON binding and validator are parameters (the bound value, or the error text). Only the `required,min=1` rule on items, and `required` on the revision's user_id, are stated.
- A nil and an empty slice both encode as a JSON list here, whereas encoding/json writes a nil slice as null.
- Proto messages with a nil nested message (a dish with no type, for example) are not modelled: every dish carries all its parts.
- Request contexts, deadlines and cancellation are left out, because they concern concurrency.
- The gRPC clients and their setup (gprc/, internal/client/) are not part of this model. Nor are process startup (cmd/server/main.go, main.go) and configuration (internal/config/config.go).
- api/order.go and api/auth.go are not part of this model: they are plumbing to global clients and stub handlers.
- The health-check route is not modelled.
- OrderHandlers.UpdateOrderEffect: its own contract states only the response count and when the body is read; what is sent and when it answers 200 are stated by OrderHandlers.UpdateOwnedEffect and OrderHandlers.UpdateMutatesOnlyOwnedOrder.
- Pipeline.HandlerEffect: states only that one response is written; each route's contract is its handler's.
- Strconv.ParseInt: its contract states the range and not the exact digits accepted; exact read-back is stated for int32 by Strconv.ParseInt32Format.

## Findings

| source | as written | input that shows it | evidently intended | confidence | as-written member | corrected member |
|---|---|---|---|---|---|---|
| api/menu.go:28 | after `HandleGRPCError` writes the 500 it returns only from itself, so `GetDishes` goes on to read `resp.Dishes` of a nil reply and panics | a body `{"id": 0}` that binds, and a menu service that fails for id 0 | answer the 500 and stop | not executed | LegacyMenu.GetDishesAsWritten | LegacyMenu.GetDishesEffect |
