/** The order aggregate: items with stock, members, deliveries, order lines and
    orders, together with the association helpers that keep both ends of every
    bidirectional reference in agreement. */
module Domain {

  datatype Option<+T> = None | Some(value: T)

  /** The result of an operation that returns nothing but may fail. */
  datatype Outcome<+E> = Pass | Fail(error: E)

  /** The result of an operation that returns a value or fails. */
  datatype Result<+R, +E> = Success(value: R) | Failure(error: E)

  /** The business-rule violations the aggregate raises. */
  datatype DomainError =
    | NotEnoughStock      // removing more units than the item has in stock
    | AlreadyDelivered    // cancelling an order whose delivery is complete

  /** The embedded address value object. */
  datatype Address = Address(city: string, street: string, zipcode: string)

  datatype OrderStatus = ORDER | CANCEL

  datatype DeliveryStatus = READY | COMP

  /** The order timestamp; the clock is a parameter of order creation. */
  type DateTime = int

  /** The variant-specific part of an item. */
  datatype ItemKind = Book(author: string, isbn: string) | Album | Movie

  /** Every field of an item, as one value. */
  datatype ItemRecord = ItemRecord(id: Option<int>, name: string, price: int,
                                   stockQuantity: int, kind: ItemKind)
  {
    /** The record after a field-level edit of name, price and stock. */
    function Edited(name: string, price: int, stockQuantity: int): ItemRecord {
      this.(name := name, price := price, stockQuantity := stockQuantity)
    }
  }

  /** An edit sets exactly the three given fields and keeps the id and the
      variant-specific fields. */
  lemma EditedIsFieldLevel(r: ItemRecord, name: string, price: int, stockQuantity: int)
    ensures var e := r.Edited(name, price, stockQuantity);
            e.name == name && e.price == price && e.stockQuantity == stockQuantity
            && e.id == r.id && e.kind == r.kind
  {
  }

  /** Editing twice with the same values is editing once. */
  lemma EditedIdempotent(r: ItemRecord, name: string, price: int, stockQuantity: int)
    ensures r.Edited(name, price, stockQuantity).Edited(name, price, stockQuantity)
            == r.Edited(name, price, stockQuantity)
  {
  }

  class Item {
    var id: Option<int>
    var name: string
    var price: int
    var stockQuantity: int
    var kind: ItemKind

    constructor (name: string, price: int, stockQuantity: int, kind: ItemKind)
      ensures Record() == ItemRecord(None, name, price, stockQuantity, kind)
    {
      this.id := None;
      this.name := name;
      this.price := price;
      this.stockQuantity := stockQuantity;
      this.kind := kind;
    }

    function Record(): ItemRecord
      reads this
    {
      ItemRecord(id, name, price, stockQuantity, kind)
    }

    /** Takes `quantity` units out of stock; refuses when that would leave
        the stock negative. */
    method RemoveStock(quantity: int) returns (r: Outcome<DomainError>)
      modifies this`stockQuantity
      ensures r.Fail? <==> old(stockQuantity) - quantity < 0
      ensures r.Fail? ==> r.error == NotEnoughStock && stockQuantity == old(stockQuantity)
      ensures r.Pass? ==> stockQuantity == old(stockQuantity) - quantity
    {
      var restStock := stockQuantity - quantity;
      if restStock < 0 {
        return Fail(NotEnoughStock);
      }
      stockQuantity := restStock;
      return Pass;
    }

    /** Puts `quantity` units back into stock; never fails. */
    method AddStock(quantity: int)
      modifies this`stockQuantity
      ensures stockQuantity == old(stockQuantity) + quantity
    {
      stockQuantity := stockQuantity + quantity;
    }
  }

  class Member {
    var id: Option<int>
    var username: string
    var address: Address
    /** The orders of this member, in the order they were placed. */
    var orders: seq<Order>

    constructor (username: string, address: Address)
      ensures id == None && this.username == username && this.address == address
      ensures orders == []
    {
      this.id := None;
      this.username := username;
      this.address := address;
      this.orders := [];
    }
  }

  class Delivery {
    var order: Order?
    var address: Address
    /** A delivery built by the order use case never gets a status. */
    var status: Option<DeliveryStatus>

    constructor (address: Address)
      ensures order == null && this.address == address && status == None
    {
      this.order := null;
      this.address := address;
      this.status := None;
    }
  }

  class OrderItem {
    var item: Item
    var order: Order?
    /** The unit price at the time of purchase, independent of the item's current price. */
    var orderPrice: int
    var count: int

    constructor (item: Item, orderPrice: int, count: int)
      ensures this.item == item && this.orderPrice == orderPrice && this.count == count
      ensures order == null
    {
      this.item := item;
      this.order := null;
      this.orderPrice := orderPrice;
      this.count := count;
    }

    /** Creates an order line and takes its count out of the item's stock.
        When the stock is too small the line is dropped and the stock is
        untouched. */
    static method CreateOrderItem(item: Item, orderPrice: int, count: int)
      returns (r: Result<OrderItem, DomainError>)
      modifies item`stockQuantity
      ensures r.Success? <==> count <= old(item.stockQuantity)
      ensures r.Failure? ==> r.error == NotEnoughStock && item.stockQuantity == old(item.stockQuantity)
      ensures r.Success? ==>
                && fresh(r.value)
                && r.value.item == item && r.value.orderPrice == orderPrice
                && r.value.count == count && r.value.order == null
                && item.stockQuantity == old(item.stockQuantity) - count
    {
      var orderItem := new OrderItem(item, orderPrice, count);
      var removed := item.RemoveStock(count);
      if removed.Fail? {
        return Failure(removed.error);
      }
      return Success(orderItem);
    }

    /** Gives this line's count back to its item's stock. */
    method Cancel()
      modifies item`stockQuantity
      ensures item.stockQuantity == old(item.stockQuantity) + count
    {
      item.AddStock(count);
    }

    /** The line total: unit price times count. */
    function TotalPrice(): int
      reads this
    {
      orderPrice * count
    }
  }

  /** The items that the given lines refer to. */
  function ItemsOf(lines: seq<OrderItem>): set<Item>
    reads lines
  {
    set li | li in lines :: li.item
  }

  /** The sum of the line totals. */
  function TotalOf(lines: seq<OrderItem>): int
    reads lines
  {
    if |lines| == 0 then 0
    else TotalOf(lines[..|lines| - 1]) + lines[|lines| - 1].TotalPrice()
  }

  /** The number of units of `it` that the given lines took out of stock. */
  function QuantityOf(lines: seq<OrderItem>, it: Item): int
    reads lines
  {
    if |lines| == 0 then 0
    else QuantityOf(lines[..|lines| - 1], it)
         + (if lines[|lines| - 1].item == it then lines[|lines| - 1].count else 0)
  }

  /** Summing the lines of two lists one after the other is adding the sums. */
  lemma {:induction false} TotalOfAppend(a: seq<OrderItem>, b: seq<OrderItem>)
    ensures TotalOf(a + b) == TotalOf(a) + TotalOf(b)
  {
    if |b| == 0 {
      assert a + b == a;
    } else {
      assert (a + b)[..|a + b| - 1] == a + b[..|b| - 1];
      TotalOfAppend(a, b[..|b| - 1]);
    }
  }

  /** The order total does not depend on the order of the lines. */
  lemma {:induction false} TotalOfPermutation(a: seq<OrderItem>, b: seq<OrderItem>)
    requires multiset(a) == multiset(b)
    ensures TotalOf(a) == TotalOf(b)
  {
    if |a| != 0 {
      var last := a[|a| - 1];
      assert last in multiset(b);
      var j :| 0 <= j < |b| && b[j] == last;
      var rest := b[..j] + b[j + 1..];
      assert b == b[..j] + [last] + b[j + 1..];
      assert a == a[..|a| - 1] + [last];
      calc {
        multiset(a[..|a| - 1]) + multiset{last};
        multiset(a);
        multiset(b);
        multiset(b[..j]) + multiset{last} + multiset(b[j + 1..]);
        multiset(rest) + multiset{last};
      }
      assert multiset(a[..|a| - 1]) == multiset(a[..|a| - 1]) + multiset{last} - multiset{last};
      assert multiset(rest) == multiset(rest) + multiset{last} - multiset{last};
      TotalOfPermutation(a[..|a| - 1], rest);
      TotalOfAppend(b[..j] + [last], b[j + 1..]);
      TotalOfAppend(b[..j], [last]);
      TotalOfAppend(b[..j], b[j + 1..]);
      assert TotalOf([last]) == last.TotalPrice() by {
        assert [last][..0] == [];
      }
    }
  }

  /** The units of an item taken by two lists of lines add up. */
  lemma {:induction false} QuantityOfAppend(a: seq<OrderItem>, b: seq<OrderItem>, it: Item)
    ensures QuantityOf(a + b, it) == QuantityOf(a, it) + QuantityOf(b, it)
  {
    if |b| == 0 {
      assert a + b == a;
    } else {
      assert (a + b)[..|a + b| - 1] == a + b[..|b| - 1];
      QuantityOfAppend(a, b[..|b| - 1], it);
    }
  }

  /** Lines that do not refer to an item took none of its units. */
  lemma {:induction false} QuantityOfUnreferenced(lines: seq<OrderItem>, it: Item)
    requires it !in ItemsOf(lines)
    ensures QuantityOf(lines, it) == 0
  {
    if |lines| != 0 {
      assert ItemsOf(lines[..|lines| - 1]) <= ItemsOf(lines) by {
        forall x | x in ItemsOf(lines[..|lines| - 1]) ensures x in ItemsOf(lines) {
          var li :| li in lines[..|lines| - 1] && li.item == x;
          assert li in lines;
        }
      }
      QuantityOfUnreferenced(lines[..|lines| - 1], it);
    }
  }

  /** A line's total is its recorded unit price times its count, and it is
      what the line adds to an order's total. */
  lemma LineTotal(li: OrderItem)
    ensures li.TotalPrice() == li.orderPrice * li.count
    ensures TotalOf([li]) == li.TotalPrice()
  {
    assert [li][..0] == [];
  }

  /** A single line took exactly its count of its own item. */
  lemma QuantityOfSingleLine(li: OrderItem)
    ensures QuantityOf([li], li.item) == li.count
    ensures TotalOf([li]) == li.orderPrice * li.count
  {
    assert [li][..0] == [];
  }

  class Order {
    var id: Option<int>
    var member: Member?
    var orderItems: seq<OrderItem>
    var delivery: Delivery?
    var orderDate: Option<DateTime>
    var status: Option<OrderStatus>

    constructor ()
      ensures id == None && member == null && orderItems == [] && delivery == null
      ensures orderDate == None && status == None
    {
      this.id := None;
      this.member := null;
      this.orderItems := [];
      this.delivery := null;
      this.orderDate := None;
      this.status := None;
    }

    /** Sets the member and records this order among the member's orders. */
    method SetMember(member: Member)
      modifies this`member, member`orders
      ensures this.member == member
      ensures member.orders == old(member.orders) + [this]
    {
      this.member := member;
      member.orders := member.orders + [this];
    }

    /** Appends a line and points the line back at this order. */
    method AddOrderItem(orderItem: OrderItem)
      modifies this`orderItems, orderItem`order
      ensures orderItems == old(orderItems) + [orderItem]
      ensures orderItem.order == this
    {
      orderItems := orderItems + [orderItem];
      orderItem.order := this;
    }

    /** Sets the delivery and points the delivery back at this order. */
    method SetDelivery(delivery: Delivery)
      modifies this`delivery, delivery`order
      ensures this.delivery == delivery
      ensures delivery.order == this
    {
      this.delivery := delivery;
      delivery.order := this;
    }

    /** Builds a new order of the given member with the given delivery and
        lines, wiring every inverse reference, in state ORDER at time `now`. */
    static method CreateOrder(member: Member, delivery: Delivery, orderItems: seq<OrderItem>,
                              now: DateTime)
      returns (order: Order)
      modifies member`orders, delivery`order, orderItems`order
      ensures fresh(order) && order.id == None
      ensures order.member == member && member.orders == old(member.orders) + [order]
      ensures order.delivery == delivery && delivery.order == order
      ensures order.orderItems == orderItems
      ensures forall li :: li in orderItems ==> li.order == order
      ensures order.status == Some(ORDER) && order.orderDate == Some(now)
    {
      order := new Order();
      order.SetMember(member);
      order.SetDelivery(delivery);
      for i := 0 to |orderItems|
        invariant order.orderItems == orderItems[..i]
        invariant forall j :: 0 <= j < i ==> orderItems[j].order == order
        invariant order.id == None && order.status == None
        invariant order.member == member && member.orders == old(member.orders) + [order]
        invariant order.delivery == delivery && delivery.order == order
      {
        order.AddOrderItem(orderItems[i]);
      }
      order.status := Some(ORDER);
      order.orderDate := Some(now);
    }

    /** Cancels the order: refused when the delivery is complete; otherwise
        the status becomes CANCEL and every line gives its count back to its
        item. The current status is not consulted. */
    method Cancel() returns (r: Outcome<DomainError>)
      requires delivery != null
      modifies this`status, ItemsOf(orderItems)`stockQuantity
      ensures r.Fail? <==> delivery.status == Some(COMP)
      ensures r.Fail? ==> r.error == AlreadyDelivered && status == old(status)
      ensures r.Fail? ==> forall it :: it in ItemsOf(orderItems) ==> it.stockQuantity == old(it.stockQuantity)
      ensures r.Pass? ==> status == Some(CANCEL)
      ensures r.Pass? ==>
                forall it :: it in ItemsOf(orderItems) ==>
                  it.stockQuantity == old(it.stockQuantity) + QuantityOf(orderItems, it)
      ensures member == old(member) && delivery == old(delivery)
      ensures orderDate == old(orderDate) && orderItems == old(orderItems) && id == old(id)
    {
      if delivery.status == Some(COMP) {
        return Fail(AlreadyDelivered);
      }
      status := Some(CANCEL);
      for i := 0 to |orderItems|
        invariant status == Some(CANCEL)
        invariant forall it :: it in ItemsOf(orderItems) ==>
                    it.stockQuantity == old(it.stockQuantity) + QuantityOf(orderItems[..i], it)
      {
        assert orderItems[i].item in ItemsOf(orderItems);
        orderItems[i].Cancel();
        assert orderItems[..i + 1][..i] == orderItems[..i];
      }
      assert orderItems[..|orderItems|] == orderItems;
      return Pass;
    }

    /** The order total, summed line by line. */
    method GetTotalPrice() returns (totalPrice: int)
      ensures totalPrice == TotalOf(orderItems)
    {
      totalPrice := 0;
      for i := 0 to |orderItems|
        invariant totalPrice == TotalOf(orderItems[..i])
      {
        totalPrice := totalPrice + orderItems[i].TotalPrice();
        assert orderItems[..i + 1][..i] == orderItems[..i];
      }
      assert orderItems[..|orderItems|] == orderItems;
    }
  }
}
