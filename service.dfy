/** The use cases: placing and cancelling orders, and saving, editing and
    finding items, each run against the id-keyed stores. */
module Service {
  import opened Domain
  import opened Repository

  class OrderService {
    const orderRepository: OrderRepository
    const memberRepository: MemberRepository
    const itemRepository: ItemRepository

    constructor (orderRepository: OrderRepository, memberRepository: MemberRepository,
                 itemRepository: ItemRepository)
      ensures this.orderRepository == orderRepository
      ensures this.memberRepository == memberRepository
      ensures this.itemRepository == itemRepository
    {
      this.orderRepository := orderRepository;
      this.memberRepository := memberRepository;
      this.itemRepository := itemRepository;
    }

    /** Places an order of `count` units of one item for one member: a new
        delivery to the member's address, one line at the item's current
        price (which takes the units out of stock) and a saved order whose id
        is returned. Too little stock fails before anything is saved. */
    method Order(memberId: int, itemId: int, count: int, now: DateTime)
      returns (r: Result<int, DomainError>)
      requires orderRepository.Valid()
      requires memberId in memberRepository.byId && itemId in itemRepository.byId
      modifies orderRepository, {memberRepository.byId[memberId]}`orders,
               {itemRepository.byId[itemId]}`stockQuantity
      ensures orderRepository.Valid()
      ensures var item := itemRepository.byId[itemId];
              r.Success? <==> count <= old(item.stockQuantity)
      ensures var member, item := memberRepository.byId[memberId], itemRepository.byId[itemId];
              r.Failure? ==>
                && r.error == NotEnoughStock
                && item.stockQuantity == old(item.stockQuantity)
                && member.orders == old(member.orders)
                && orderRepository.byId == old(orderRepository.byId)
                && orderRepository.nextId == old(orderRepository.nextId)
      ensures var member, item := memberRepository.byId[memberId], itemRepository.byId[itemId];
              r.Success? ==>
                && r.value !in old(orderRepository.byId)
                && r.value in orderRepository.byId
                && var order := orderRepository.byId[r.value];
                   && orderRepository.byId == old(orderRepository.byId)[r.value := order]
                   && fresh(order) && order.id == Some(r.value)
                   && order.status == Some(ORDER) && order.orderDate == Some(now)
                   && order.member == member && member.orders == old(member.orders) + [order]
                   && order.delivery != null && fresh(order.delivery)
                   && order.delivery.address == member.address
                   && order.delivery.status == None && order.delivery.order == order
                   && |order.orderItems| == 1 && fresh(order.orderItems[0])
                   && order.orderItems[0].item == item
                   && order.orderItems[0].orderPrice == item.price
                   && order.orderItems[0].count == count
                   && order.orderItems[0].order == order
                   && TotalOf(order.orderItems) == item.price * count
                   && item.stockQuantity == old(item.stockQuantity) - count
    {
      var member := memberRepository.byId[memberId];
      var item := itemRepository.byId[itemId];

      var delivery := new Delivery(member.address);

      var created := OrderItem.CreateOrderItem(item, item.price, count);
      if created.Failure? {
        return Failure(created.error);
      }
      var orderItem := created.value;

      var order := Domain.Order.CreateOrder(member, delivery, [orderItem], now);
      assert TotalOf(order.orderItems) == orderItem.TotalPrice() by {
        assert order.orderItems[..0] == [];
      }

      orderRepository.Save(order);
      return Success(order.id.value);
    }

    /** Cancels the stored order with the given id: refused when its delivery
        is complete, otherwise the order becomes CANCEL and its lines give
        their units back to stock. */
    method CancelOrder(orderId: int) returns (r: Outcome<DomainError>)
      requires orderRepository.Valid()
      requires orderId in orderRepository.byId
      requires orderRepository.byId[orderId].delivery != null
      modifies {orderRepository.byId[orderId]}`status,
               ItemsOf(orderRepository.byId[orderId].orderItems)`stockQuantity
      ensures orderRepository.Valid()
      ensures var order := orderRepository.byId[orderId];
              && (r.Fail? <==> order.delivery.status == Some(COMP))
              && (r.Fail? ==>
                    && r.error == AlreadyDelivered && order.status == old(order.status)
                    && forall it :: it in ItemsOf(order.orderItems) ==>
                         it.stockQuantity == old(it.stockQuantity))
              && (r.Pass? ==>
                    && order.status == Some(CANCEL)
                    && forall it :: it in ItemsOf(order.orderItems) ==>
                         it.stockQuantity == old(it.stockQuantity) + QuantityOf(order.orderItems, it))
    {
      var order := orderRepository.byId[orderId];
      r := order.Cancel();
    }
  }

  class ItemService {
    const itemRepository: ItemRepository

    constructor (itemRepository: ItemRepository)
      ensures this.itemRepository == itemRepository
    {
      this.itemRepository := itemRepository;
    }

    /** Stores an item: a new one under a fresh id, one with an id by
        overwriting the stored item's fields. */
    method SaveItem(item: Item)
      requires itemRepository.Valid()
      requires item.id.Some? ==> item.id.value in itemRepository.byId
      modifies itemRepository, item`id,
               if item.id.Some? then {itemRepository.byId[item.id.value]} else {}
      ensures itemRepository.Valid()
      ensures old(item.id).None? ==>
                && old(itemRepository.nextId) !in old(itemRepository.byId)
                && itemRepository.byId == old(itemRepository.byId)[old(itemRepository.nextId) := item]
                && item.Record() == old(item.Record()).(id := Some(old(itemRepository.nextId)))
      ensures old(item.id).Some? ==>
                && itemRepository.byId == old(itemRepository.byId)
                && itemRepository.byId[old(item.id).value].Record() == old(item.Record())
                && item.Record() == old(item.Record())
    {
      itemRepository.Save(item);
    }

    /** Edits name, price and stock quantity of the stored item in place.
        The stock is written as given, without the stock check. */
    method UpdateItem(id: int, name: string, price: int, stockQuantity: int)
      requires itemRepository.Valid() && id in itemRepository.byId
      modifies {itemRepository.byId[id]}`name, {itemRepository.byId[id]}`price,
               {itemRepository.byId[id]}`stockQuantity
      ensures itemRepository.Valid()
      ensures itemRepository.byId == old(itemRepository.byId)
      ensures itemRepository.byId[id].Record() == old(itemRepository.byId[id].Record()).Edited(name, price, stockQuantity)
      ensures forall k :: k in itemRepository.byId && k != id ==>
                itemRepository.byId[k].Record() == old(itemRepository.byId[k].Record())
    {
      var persistItem := itemRepository.byId[id];
      assert forall k :: k in itemRepository.byId ==> itemRepository.byId[k].id == Some(k);
      persistItem.name := name;
      persistItem.price := price;
      persistItem.stockQuantity := stockQuantity;
    }

    /** The stored item with the given id, or null when there is none. */
    method FindItem(id: int) returns (r: Item?)
      ensures id in itemRepository.byId ==> r == itemRepository.byId[id]
      ensures id !in itemRepository.byId ==> r == null
    {
      r := itemRepository.FindOne(id);
    }
  }
}
