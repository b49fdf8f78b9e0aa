/** Concrete scenarios of the use cases, each proved from the contracts alone: the
    order, over-stock and cancel scenarios of the order service tests, the
    unguarded second cancel, the refused cancel of a delivered order, and the
    item store's save and edit. */
module Scenarios {
  import opened Domain
  import opened Repository
  import opened Service
  import QueryDto

  /** A member with the test address, a book priced 10000 with 10 in stock,
      both stored, and an order service over fresh stores. */
  method Fixture() returns (service: OrderService, memberId: int, itemId: int)
    ensures fresh(service) && fresh(service.orderRepository)
    ensures fresh(service.memberRepository) && fresh(service.itemRepository)
    ensures service.orderRepository.Valid() && service.orderRepository.byId == map[]
    ensures service.itemRepository.Valid()
    ensures memberId in service.memberRepository.byId && itemId in service.itemRepository.byId
    ensures fresh(service.memberRepository.byId[memberId])
    ensures fresh(service.itemRepository.byId[itemId])
    ensures service.itemRepository.byId[itemId].price == 10000
    ensures service.itemRepository.byId[itemId].stockQuantity == 10
  {
    var orders := new OrderRepository();
    var members := new MemberRepository();
    var items := new ItemRepository();
    var member := new Member("회원1", Address("서울", "강가", "123-123"));
    memberId := members.Save(member);
    var book := new Item("시골 JPA", 10000, 10, Book("", ""));
    var nextItemId := items.nextId;
    items.Save(book);
    itemId := nextItemId;
    service := new OrderService(orders, members, items);
  }

  /** Ordering 2 of the book succeeds: the saved order is ORDER, has one
      line, totals 20000, and the stock drops to 8. */
  method OrderScenario() returns (status: Option<OrderStatus>, lineCount: int, total: int, stock: int)
    ensures status == Some(ORDER) && lineCount == 1 && total == 20000 && stock == 8
  {
    var service, memberId, itemId := Fixture();
    var r := service.Order(memberId, itemId, 2, 0);
    var order := service.orderRepository.FindOne(r.value);
    status := order.status;
    lineCount := |order.orderItems|;
    total := order.GetTotalPrice();
    stock := service.itemRepository.byId[itemId].stockQuantity;
  }

  /** Ordering 11 when 10 are in stock fails with NotEnoughStock, saves no
      order and leaves the stock at 10. */
  method OrderBeyondStockScenario() returns (r: Result<int, DomainError>, saved: int, stock: int)
    ensures r == Failure(NotEnoughStock) && saved == 0 && stock == 10
  {
    var service, memberId, itemId := Fixture();
    r := service.Order(memberId, itemId, 11, 0);
    saved := |service.orderRepository.byId|;
    stock := service.itemRepository.byId[itemId].stockQuantity;
  }

  /** The fixture after ordering 2 of the book: one stored ORDER order whose
      single line holds the book at 10000, with 8 left in stock. */
  method PlacedOrder() returns (service: OrderService, item: Item, orderId: int, order: Order)
    ensures fresh(service.itemRepository) && service.itemRepository.Valid()
    ensures service.orderRepository.Valid()
    ensures orderId in service.orderRepository.byId && order == service.orderRepository.byId[orderId]
    ensures fresh(item) && fresh(order) && order.status == Some(ORDER)
    ensures order.delivery != null && fresh(order.delivery) && order.delivery.status == None
    ensures |order.orderItems| == 1 && order.orderItems[0].item == item
    ensures order.orderItems[0].orderPrice == 10000
    ensures item in ItemsOf(order.orderItems) && QuantityOf(order.orderItems, item) == 2
    ensures item.price == 10000 && item.stockQuantity == 8
    ensures exists id :: id in service.itemRepository.byId && service.itemRepository.byId[id] == item
  {
    var memberId, itemId;
    service, memberId, itemId := Fixture();
    var r := service.Order(memberId, itemId, 2, 0);
    orderId := r.value;
    order := service.orderRepository.byId[orderId];
    item := service.itemRepository.byId[itemId];
    QuantityOfSingleLine(order.orderItems[0]);
    assert order.orderItems[0].item in ItemsOf(order.orderItems);
  }

  /** Ordering 2 and cancelling makes the order CANCEL and returns the stock
      to 10. */
  method CancelScenario() returns (status: Option<OrderStatus>, stock: int)
    ensures status == Some(CANCEL) && stock == 10
  {
    var service, item, orderId, order := PlacedOrder();
    var c := service.CancelOrder(orderId);
    status := order.status;
    stock := item.stockQuantity;
  }

  /** Cancelling the same order twice succeeds both times, because the
      current status is not consulted: the stock is given back twice and
      ends at 12. */
  method DoubleCancelScenario() returns (first: Outcome<DomainError>, second: Outcome<DomainError>,
                                         stock: int)
    ensures first == Pass && second == Pass && stock == 12
  {
    var service, item, orderId, order := PlacedOrder();
    first := service.CancelOrder(orderId);
    second := service.CancelOrder(orderId);
    stock := item.stockQuantity;
  }

  /** Once the delivery is complete, cancelling fails and neither the status
      nor the stock (8 after ordering 2) changes. */
  method DeliveredCancelScenario() returns (c: Outcome<DomainError>, status: Option<OrderStatus>,
                                            stock: int)
    ensures c == Fail(AlreadyDelivered) && status == Some(ORDER) && stock == 8
  {
    var service, item, orderId, order := PlacedOrder();
    order.delivery.status := Some(COMP);
    c := service.CancelOrder(orderId);
    status := order.status;
    stock := item.stockQuantity;
  }

  /** A new item saved through the item service is found under the id it was
      given; editing it in place changes name, price and stock, keeps its id
      and its book fields, and accepts a negative stock. */
  method ItemEditScenario() returns (id: int, found: Item?, record: ItemRecord)
    ensures found != null && found.Record() == record
    ensures record == ItemRecord(Some(id), "JPA", 20000, -5, Book("kim", "978"))
  {
    var items := new ItemRepository();
    var service := new ItemService(items);
    var book := new Item("시골 JPA", 10000, 10, Book("kim", "978"));
    id := items.nextId;
    service.SaveItem(book);
    found := service.FindItem(id);
    service.UpdateItem(id, "JPA", 20000, -5);
    record := found.Record();
  }

  /** For every member, item, count and stock: placing an order and then
      cancelling it leaves the item's stock as it was. An order that fits the
      stock is saved and ends CANCEL; one that does not is refused. */
  method OrderThenCancel(service: OrderService, memberId: int, itemId: int, count: int,
                         now: DateTime)
    returns (placed: Result<int, DomainError>, cancelled: Outcome<DomainError>)
    requires service.orderRepository.Valid()
    requires memberId in service.memberRepository.byId && itemId in service.itemRepository.byId
    modifies service.orderRepository, {service.memberRepository.byId[memberId]}`orders,
             {service.itemRepository.byId[itemId]}`stockQuantity
    ensures placed.Success? <==> count <= old(service.itemRepository.byId[itemId].stockQuantity)
    ensures placed.Success? ==>
              && cancelled == Pass
              && placed.value in service.orderRepository.byId
              && service.orderRepository.byId[placed.value].status == Some(CANCEL)
    ensures service.itemRepository.byId[itemId].stockQuantity
            == old(service.itemRepository.byId[itemId].stockQuantity)
  {
    cancelled := Pass;
    placed := service.Order(memberId, itemId, count, now);
    if placed.Success? {
      var order := service.orderRepository.byId[placed.value];
      QuantityOfSingleLine(order.orderItems[0]);
      assert order.orderItems[0].item in ItemsOf(order.orderItems);
      cancelled := service.CancelOrder(placed.value);
    }
  }

  /** Creating a line and cancelling it gives the item its stock back; a
      line that could not be created leaves the stock as it was. */
  method LineRoundTrip(item: Item, orderPrice: int, count: int) returns (created: bool)
    modifies item`stockQuantity
    ensures created <==> count <= old(item.stockQuantity)
    ensures item.stockQuantity == old(item.stockQuantity)
  {
    var r := OrderItem.CreateOrderItem(item, orderPrice, count);
    created := r.Success?;
    if created {
      r.value.Cancel();
    }
  }

  /** Repeating an edit with the same values leaves the item as one edit
      does. */
  method RepeatedEditScenario() returns (once: ItemRecord, twice: ItemRecord)
    ensures once == twice
    ensures once.name == "JPA" && once.price == 20000 && once.stockQuantity == 3
  {
    var items := new ItemRepository();
    var service := new ItemService(items);
    var book := new Item("시골 JPA", 10000, 10, Book("kim", "978"));
    var id := items.nextId;
    service.SaveItem(book);
    service.UpdateItem(id, "JPA", 20000, 3);
    once := items.byId[id].Record();
    service.UpdateItem(id, "JPA", 20000, 3);
    twice := items.byId[id].Record();
    EditedIdempotent(once, "JPA", 20000, 3);
  }

  /** A line value shows the price the line was ordered at, not the item's
      price after a later edit. */
  method PriceEditScenario() returns (linePrice: int, itemPrice: int)
    ensures linePrice == 10000 && itemPrice == 20000
  {
    var service, item, orderId, order := PlacedOrder();
    var line := order.orderItems[0];
    var itemService := new ItemService(service.itemRepository);
    var itemId :| itemId in service.itemRepository.byId && service.itemRepository.byId[itemId] == item;
    itemService.UpdateItem(itemId, "시골 JPA", 20000, 8);
    linePrice := QueryDto.OrderItemDtoOf(line).orderPrice;
    itemPrice := line.item.price;
  }
}
