# jpashop order core in Dafny

This project models the order core of the jpashop shop application, a Spring/JPA
example shop. It covers:

- **The order aggregate.** An `Order` is wired to its member, its delivery and its
  order lines. A line (`OrderItem`) takes its count out of the item's stock when it is
  created and gives the count back when it is cancelled. An order cancels by becoming
  `CANCEL` and cancelling every line. Cancelling is refused only when the delivery is
  complete (`COMP`). The order's total is the sum of its lines' totals.
- **The use cases.** `OrderService.order` places an order against id-keyed stores and
  `OrderService.cancelOrder` cancels one. `ItemService` saves, finds and edits items
  in place.
- **The read side.**
  - Orders and their lines projected into response values: the simple order value,
    the full order value with its line values, and the list maps of the V2/V3
    endpoints.
  - The V6 endpoint's in-memory regrouping of flat join rows into one result per order.

The files are:

| file | module | contents |
|---|---|---|
| `domain.dfy` | `Domain` | Entities as classes: `Item`, `Member`, `Delivery`, `OrderItem`, `Order`. Also the value types and the specification functions `ItemsOf`, `TotalOf` and `QuantityOf`, with their lemmas. |
| `repository.dfy` | `Repository` | The item, member and order stores. Each is a map from id to object plus the next free id. |
| `service.dfy` | `Service` | `OrderService` and `ItemService`. |
| `query_dto.dfy` | `QueryDto` | The line value and the full order value, with the projections from the entities. |
| `order_query.dfy` | `OrderQuery` | The flat row, the grouped order result and its line value, and the grouping key. |
| `api.dfy` | `Api` | The simple order value, the V2/V3 list maps, and the V6 regrouping with its specification and proofs. |
| `scenarios.dfy` | `Scenarios` | Concrete scenarios of the service tests and of the edge cases below. Each is proved from the contracts alone. |

### How the source is represented

- **Nullable fields.** A Java field that starts out `null` becomes `T?` when it holds
  a reference. It becomes `Option` when it holds a value: the generated id, the order
  status, the order date and the delivery status.
- **Deliveries created by `order`.** `OrderService.order` creates the delivery without
  setting its status, so that status is `None`. This is never `COMP`, so such an order
  can always be cancelled.
- **Cancelling twice.** `Order.cancel` does not look at the current status. A second
  cancel succeeds and gives the stock back a second time
  (`Scenarios.DoubleCancelScenario`).
- **Errors.** The exceptions become result values:
  - `removeStock` and `createOrderItem` fail with `NotEnoughStock`.
  - `cancel` fails with `AlreadyDelivered`.
  - `OrderService.order` reports the failure and saves nothing.
- **Stock check.** The `Item` class's own code is not part of this model, so
  `Domain.Item.RemoveStock` does not reproduce it. Its failure rule is taken from the
  order line's documentation (src/main/java/jpabook/jpashop/domain/OrderItem.java:33-34)
  and the order service test (src/test/java/jpabook/jpashop/service/OrderServiceTest.java:59-72):
  the stock may not go below zero, so an order of more than the stock fails.
- **`updateItem` writes stock directly.** It does not go through that check, so a
  negative stock is accepted (`Scenarios.ItemEditScenario`).
- **Item fields.** An item's fields are gathered as an `ItemRecord` value, so that
  "these three fields change and nothing else" can be stated as one equation
  (`ItemRecord.Edited`).
- **Stock restored per item.** `Order.Cancel` gives each item back the total count of
  the order's lines that refer to it (`QuantityOf`). Two lines of the same item
  therefore restore both counts.
- **Stores.** A store is a map from id to object plus the next free id. Saving a new
  object gives it that id, which stands in for the database sequence. `Valid()`
  says every stored object carries its own key.
- **References that are never null where the source uses them.** The source reads these
  without a null check, and every call site in the source meets the condition. The model
  states each one as a precondition:
  - `OrderService.order` and `cancelOrder` read the looked-up member, item and order,
    so the ids must be stored.
  - `ItemService.updateItem` reads the looked-up item, so its id must be stored.
  - `Order.cancel`, and `cancelOrder` through it, read the order's delivery, so the
    delivery must be set.
  - The order projections (`SimpleOrderDtoOf`, `OrderDtoOf` and the list maps) read the
    order's member and delivery, so both must be set.
- **`ItemRepository.save` with an id.** In the source this merges. The model requires
  the id to be stored and copies the detached item's fields onto the stored one.
- **`Member.username`.** The model follows the main code, which sets and reads the
  member's name as `username`
  (src/main/java/jpabook/jpashop/api/MemberApiController.java:39,
  src/main/java/jpabook/jpashop/service/query/OrderDto.java:24,
  src/main/java/jpabook/jpashop/api/OrderSimpleApiController.java:103). The tests call
  `setName` instead (src/test/java/jpabook/jpashop/service/OrderServiceTest.java:106,
  src/test/java/jpabook/jpashop/service/MemberServiceTest.java:37-53). Member.java is
  not part of this model.
- **Line values keep the order price.** A line value takes the line's `orderPrice`,
  not the item's current price (`Scenarios.PriceEditScenario`).
- **One order projection for two classes.** The inner `OrderDto`/`OrderItemDto` of
  `OrderApiController` are the same as those under `service/query`, field by field.
  Both are modelled by `QueryDto.OrderDtoOf` and `QueryDto.OrderItemDtosOf`.
  `Api.OrderDtos` is the V2 map over them. It is also the map of
  `OrderQueryService`.
- **V6 key equality.** The source groups by `OrderQueryDto` keys, and that class's
  `equals` is not part of this model. The model therefore takes the key equality as a
  parameter `keyOf: OrderKey -> K`: two keys are equal exactly when `keyOf` maps them
  to the same value.
- **V6 output order.** The model files results in the order their key classes first
  appear. Every property is stated without depending on that order, because the
  source's hash map gives none. Each result's root fields are those of the first key
  of its class, which is the key a Java `HashMap` keeps.
- **V6 in one pass.** The two passes of the stream (`groupingBy` into a map, then a
  `map` over its entries) are modelled as that single pass.

## Model

| member | source | states |
|---|---|---|
| Domain.Item.constructor | src/test/java/jpabook/jpashop/service/OrderServiceTest.java:95-101 | A new item has no id and exactly the given name, price, stock and variant fields. |
| Domain.Item.RemoveStock | src/test/java/jpabook/jpashop/service/OrderServiceTest.java:59-72 | Fails with NotEnoughStock exactly when the quantity exceeds the stock, and then leaves the stock alone. Otherwise it lowers the stock by the quantity. |
| Domain.Item.AddStock | src/main/java/jpabook/jpashop/domain/OrderItem.java:47-53 | Raises the stock by exactly the quantity. |
| Domain.EditedIsFieldLevel | src/main/java/jpabook/jpashop/service/ItemService.java:29-42 | An edit sets name, price and stock to the given values and keeps the id and the variant-specific fields (author, isbn). |
| Domain.EditedIdempotent | src/main/java/jpabook/jpashop/service/ItemService.java:39-41 | Editing twice with the same values gives the same record as editing once. |
| Domain.Member.constructor | src/test/java/jpabook/jpashop/service/OrderServiceTest.java:104-110 | A new member has no id, no orders, and the given name and address. |
| Domain.Delivery.constructor | src/main/java/jpabook/jpashop/service/OrderService.java:39-40 | A new delivery has the given address, no status and no order. |
| Domain.OrderItem.constructor | src/main/java/jpabook/jpashop/domain/OrderItem.java:37-40 | A new line holds exactly the given item, price and count, and no order. |
| Domain.OrderItem.CreateOrderItem | src/main/java/jpabook/jpashop/domain/OrderItem.java:36-44 | Succeeds exactly when the count does not exceed the item's stock. Then the line is fresh, holds exactly the item, price and count, has no order yet, and the stock drops by exactly the count. On failure it returns NotEnoughStock and the stock is unchanged. |
| Domain.OrderItem.Cancel | src/main/java/jpabook/jpashop/domain/OrderItem.java:51-53 | Raises the item's stock by the line's count, and changes nothing else. |
| Domain.TotalOfAppend | src/main/java/jpabook/jpashop/domain/Order.java:96-103 | The total of two line lists joined is the sum of their totals. |
| Domain.TotalOfPermutation | src/main/java/jpabook/jpashop/domain/Order.java:96-103 | The total does not depend on the order of the lines. |
| Domain.QuantityOfAppend | src/main/java/jpabook/jpashop/domain/Order.java:84-86 | The count restored to an item by two line lists joined is the sum of the counts each restores. |
| Domain.QuantityOfUnreferenced | src/main/java/jpabook/jpashop/domain/Order.java:84-86 | Lines that do not refer to an item restore nothing to it. |
| Domain.QuantityOfSingleLine | src/main/java/jpabook/jpashop/domain/OrderItem.java:51-63 | One line restores its count to its item, and its total is price times count. |
| Domain.Order.constructor | src/main/java/jpabook/jpashop/domain/Order.java:61 | A blank order has no id, member, delivery, lines, date or status. |
| Domain.Order.SetMember | src/main/java/jpabook/jpashop/domain/Order.java:39-42 | The order's member is set, and the member's order list gains exactly this order at its end. |
| Domain.Order.AddOrderItem | src/main/java/jpabook/jpashop/domain/Order.java:44-47 | The line is appended to the order's lines, and the line's order points back to this order. |
| Domain.Order.SetDelivery | src/main/java/jpabook/jpashop/domain/Order.java:49-52 | The order's delivery is set, and the delivery's order points back to this order. |
| Domain.Order.CreateOrder | src/main/java/jpabook/jpashop/domain/Order.java:60-70 | A new order with status ORDER and the given date. Its member's list ends with it, and its delivery points back to it. Its lines are exactly the arguments, in argument order, and each points back to it. |
| Domain.Order.Cancel | src/main/java/jpabook/jpashop/domain/Order.java:78-87 | Fails with AlreadyDelivered exactly when the delivery is COMP, and then leaves status and every stock unchanged. Otherwise the status becomes CANCEL, whatever it was before, and every referenced item's stock rises by the total count of the lines referring to it. Member, delivery, date, id and the line list never change. |
| Domain.Order.GetTotalPrice | src/main/java/jpabook/jpashop/domain/Order.java:96-103 | The loop's result is the sum of price times count over the lines: `TotalOf`. This is 0 for no lines. |
| Repository.ItemRepository.Save | src/main/java/jpabook/jpashop/repository/ItemRepository.java:19-25 | An item without an id is stored under a fresh id, which it now carries. An item with an id overwrites the stored item's fields with its own, and the store keeps its keys. The detached item itself, id included, is left as it was. The store stays valid. |
| Repository.ItemRepository.FindOne | src/main/java/jpabook/jpashop/repository/ItemRepository.java:30-32 | Returns the item stored under the id, or null when there is none. |
| Repository.MemberRepository.Save | src/test/java/jpabook/jpashop/service/OrderServiceTest.java:104-110 | Stores the member under a fresh id, which it now carries and which is returned. |
| Repository.OrderRepository.Save | src/main/java/jpabook/jpashop/service/OrderService.java:48-51 | Stores the order under a fresh id, which it now carries. Nothing else in the store changes. |
| Repository.OrderRepository.FindOne | src/main/java/jpabook/jpashop/service/OrderService.java:64 | Returns the order stored under the id, or null when there is none. |
| Service.OrderService.Order | src/main/java/jpabook/jpashop/service/OrderService.java:32-52 | Succeeds exactly when the count does not exceed the stock. On failure: NotEnoughStock, no order saved, stock and member unchanged. On success, the returned id is new and finds the saved order, which has status ORDER, the given date and this member, and the member's list ends with it. Its new delivery goes to the member's address. Its single line holds this item at the item's price and the count. Its total is price times count, and the stock drops by the count. |
| Service.OrderService.CancelOrder | src/main/java/jpabook/jpashop/service/OrderService.java:63-66 | Cancels the stored order as `Order.Cancel` does, with the same outcome and the same stock changes. |
| Service.ItemService.SaveItem | src/main/java/jpabook/jpashop/service/ItemService.java:18-21 | As `ItemRepository.Save`, including that a merged detached item keeps its id and fields. |
| Service.ItemService.UpdateItem | src/main/java/jpabook/jpashop/service/ItemService.java:33-42 | The stored item's record becomes its old record with exactly name, price and stock replaced. Any stock value is accepted. The store's keys and every other stored item are unchanged. |
| Service.ItemService.FindItem | src/main/java/jpabook/jpashop/service/ItemService.java:48-50 | Returns the item stored under the id, or null when there is none. |
| Domain.LineTotal | src/main/java/jpabook/jpashop/domain/OrderItem.java:61-63 | A line's total (`OrderItem.TotalPrice`) is its recorded unit price times its count, and it is what the line adds to an order's total. |
| QueryDto.OrderItemDtoCopiesLine | src/main/java/jpabook/jpashop/service/query/OrderItemDto.java:13-17 | `OrderItemDtoOf` takes the item's name and the line's own price and count. The inner `OrderItemDto` of `OrderApiController` (lines 226-230) is the same. |
| OrderQuery.RowKey | src/main/java/jpabook/jpashop/api/OrderApiController.java:185-186 | A row's grouping key has exactly the row's id, name, date, status and address. |
| OrderQuery.RowItem | src/main/java/jpabook/jpashop/api/OrderApiController.java:187-188 | A row's line value has exactly the row's order id, item name, price and count. |
| QueryDto.OrderItemDtoKeepsLineTotal | src/main/java/jpabook/jpashop/service/query/OrderItemDto.java:13-17 | A line value's price times count is the line's total. |
| QueryDto.OrderItemDtosOf | src/main/java/jpabook/jpashop/service/query/OrderDto.java:30-32 | One line value per line, same length, same order. Each takes the item's name and the line's own price and count. |
| QueryDto.OrderDtoOf | src/main/java/jpabook/jpashop/service/query/OrderDto.java:22-33 | The order value has the order's id, date and status, the member's username, the delivery's address, and the projected lines. |
| QueryDto.OrderItemDtosKeepTotal | src/main/java/jpabook/jpashop/service/query/OrderItemDto.java:15-16 | Summing price times count over the line values gives the order's total. |
| Api.SimpleOrderDtoOf | src/main/java/jpabook/jpashop/api/OrderSimpleApiController.java:101-107 | The simple value has the order's id, date and status, the member's username and the delivery's address. |
| Api.SimpleOrderDtos | src/main/java/jpabook/jpashop/api/OrderSimpleApiController.java:57-80 | V2/V3: exactly one simple value per order, same length, same order. |
| Api.OrderDtos | src/main/java/jpabook/jpashop/api/OrderApiController.java:68-75 | V2: exactly one full order value per order, same length, same order. |
| Api.SimpleAgreesWithFull | src/main/java/jpabook/jpashop/api/OrderApiController.java:204-216 | The simple value and the full order value of an order agree on every root field. |
| Api.FindClass | src/main/java/jpabook/jpashop/api/OrderApiController.java:185-186 | Finds the result whose key is in the given class, or reports that none is. |
| Api.OrdersV6 | src/main/java/jpabook/jpashop/api/OrderApiController.java:181-193 | There is exactly one result per key class that occurs, and no two results share a class. Each result's root fields are the first key of its class. Each result holds exactly the line values of that class's rows, in row order. |
| Api.OrdersV6KeepsLines | src/main/java/jpabook/jpashop/api/OrderApiController.java:185-188 | Taken together, the results hold exactly the rows' line values: the same multiset, nothing lost or invented. |
| Api.OrdersV6KeepsLineCount | src/main/java/jpabook/jpashop/api/OrderApiController.java:185-188 | The results hold as many line values as there are rows. |
| Api.RegroupsOfNoRows | src/main/java/jpabook/jpashop/api/OrderApiController.java:184-192 | No rows regroup into no results, and only into none. |
| Api.AddRowRegroups | src/main/java/jpabook/jpashop/api/OrderApiController.java:185-189 | Filing one more row keeps the regrouping property. |
| Api.AddRowAddsItem | src/main/java/jpabook/jpashop/api/OrderApiController.java:187-188 | Filing one more row adds exactly its line value to the results. |
| Scenarios.Fixture | src/test/java/jpabook/jpashop/service/OrderServiceTest.java:95-110 | The test's member and book (price 10000, stock 10), stored, with an empty order store. |
| Scenarios.OrderScenario | src/test/java/jpabook/jpashop/service/OrderServiceTest.java:41-57 | Ordering 2 gives status ORDER, one line, total 20000 and stock 8. |
| Scenarios.OrderBeyondStockScenario | src/test/java/jpabook/jpashop/service/OrderServiceTest.java:59-72 | Ordering 11 fails with NotEnoughStock, saves nothing, and leaves the stock at 10. |
| Scenarios.PlacedOrder | src/test/java/jpabook/jpashop/service/OrderServiceTest.java:78-82 | After ordering 2: one stored ORDER order with one line of the book at 10000, and stock 8. |
| Scenarios.CancelScenario | src/test/java/jpabook/jpashop/service/OrderServiceTest.java:75-92 | Ordering 2 and cancelling gives status CANCEL and stock 10. |
| Scenarios.DoubleCancelScenario | src/main/java/jpabook/jpashop/domain/Order.java:78-87 | A second cancel also succeeds, and the stock ends at 12. |
| Scenarios.DeliveredCancelScenario | src/main/java/jpabook/jpashop/domain/Order.java:79-81 | With the delivery complete, cancel fails with AlreadyDelivered, and the status stays ORDER and the stock 8. |
| Scenarios.ItemEditScenario | src/main/java/jpabook/jpashop/service/ItemService.java:34-42 | A saved item is found under its new id. Editing it keeps its id and book fields and accepts a negative stock. |
| Scenarios.OrderThenCancel | src/main/java/jpabook/jpashop/service/OrderService.java:32-66 | For every member, item, count and stock: the order is placed exactly when the count fits the stock; a placed order cancels with success and ends CANCEL; either way the item's stock ends as it was before the order. |
| Scenarios.LineRoundTrip | src/main/java/jpabook/jpashop/domain/OrderItem.java:36-53 | Creating a line and cancelling it leaves the stock as it was. A line is created exactly when the count fits the stock. |
| Scenarios.RepeatedEditScenario | src/main/java/jpabook/jpashop/service/ItemService.java:39-41 | Repeating an edit with the same values leaves the item as one edit does. |
| Scenarios.PriceEditScenario | src/main/java/jpabook/jpashop/service/query/OrderItemDto.java:15 | After the item's price is edited, the line value still shows the price the line was ordered at. |

## Left out

- **The web layer.** HTTP mapping, JSON and Hibernate module wiring, the controllers'
  V1 loops that only touch lazy proxies, and the V4/V5 endpoints. These are transport
  and runtime-proxy concerns.
- **ItemController, MemberApiController, MemberForm and the application entry point.**
  These are transport only.
- **The JPQL queries and the EntityManager.** This covers `OrderRepository.findAllByString`,
  `findWithMemberDelivery`, `findAllWithItem`, `OrderQueryRepository` and
  `OrderSimpleQueryRepository`. They delegate to the persistence provider. The orders
  they return, and the flat rows, are inputs to the model. The query counts claimed in
  comments are provider behaviour.
- **`OrderService.findOrders`, `ItemService.findItems` and `ItemRepository.findAll`.**
  These are query pass-throughs with no logic.
- **MemberService and its duplicate-name rule.** MemberService is not part of this
  model. Its test is the only trace of it.
- **Transactions, dirty checking, open-session-in-view and lazy loading.** In the model
  a change to an object is simply its new state.
- **Reading the clock.** `LocalDateTime.now()` in `createOrder` is a `now` parameter,
  and dates are integers.
- **Id generation.** The database sequence is the store's `nextId` counter.
  Delivery and OrderItem carry no id field. Saving an order cascades to both
  (src/main/java/jpabook/jpashop/domain/Order.java:26, 29), so each gets a generated id,
  but nothing in the modelled core reads those ids.
- **Java `int` overflow.** This applies to `getTotalPrice`, `getTotalPrice` of a line
  and the stock arithmetic. Integers are unbounded.
- **Album and Movie fields.** These classes are not part of this model, and
  `updateItem` does not touch their fields, so their fields are omitted.
- **Service.OrderService.Order, Service.OrderService.CancelOrder, Service.ItemService.UpdateItem,
  Domain.Order.Cancel:** these require the looked-up ids to be stored, and the delivery to
  be set for cancelling. They do not model the null dereference the source would hit.
- **Api.SimpleOrderDtoOf, QueryDto.OrderDtoOf, Api.SimpleOrderDtos, Api.OrderDtos:** these
  require every order's member and delivery to be set, for the same reason.
- **Repository.ItemRepository.Save, Service.ItemService.SaveItem:** an item carrying an
  id that is not stored is excluded by a precondition. What `merge` does with it is
  provider behaviour.
- **Repository.MemberRepository.Save, Repository.OrderRepository.Save:** these require
  an entity without an id. Persisting one that already has an id is a
  persistence-provider error, and every call site passes a new entity.
- **Missing semicolon.** `ItemRepository.save` has no semicolon after the `merge` call
  at src/main/java/jpabook/jpashop/repository/ItemRepository.java:23, so the file as
  written does not compile. The model follows the evident intent.
- **V6 result order.** The model fixes the order of the results to first appearance
  of their key classes. The source's hash map makes the order unspecified, and no
  property depends on it.
- **Building values changes nothing.** The projections are functions, so it is
  immediate that constructing a response value changes no order, member, delivery,
  line or item.
- **Agreement of V6 with V2.** The model does not prove that V6 over the join of a list
  of orders agrees with the V2 projection of the same orders. The flat rows come from a
  JPQL join query, which is not modelled, so nothing in the model links an order list
  to its rows.
