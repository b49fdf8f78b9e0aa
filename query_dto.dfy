/** The service-side read model: an order and its lines projected into
    response values, reading the entity graph and changing none of it. */
module QueryDto {
  import opened Domain

  datatype OrderItemDto = OrderItemDto(itemName: string, orderPrice: int, count: int)

  datatype OrderDto = OrderDto(orderId: Option<int>, name: string, orderDate: Option<DateTime>,
                               orderStatus: Option<OrderStatus>, address: Address,
                               orderItems: seq<OrderItemDto>)

  /** One line as a response value: the item's name, and the price and count
      recorded on the line. */
  function OrderItemDtoOf(li: OrderItem): OrderItemDto
    reads li, li.item
  {
    OrderItemDto(li.item.name, li.orderPrice, li.count)
  }

  /** A line value takes the item's name and the price and count recorded
      on the line, not the item's current price. */
  lemma OrderItemDtoCopiesLine(li: OrderItem)
    ensures var dto := OrderItemDtoOf(li);
            dto.itemName == li.item.name && dto.orderPrice == li.orderPrice && dto.count == li.count
  {
  }

  /** A line value keeps the line's total. */
  lemma OrderItemDtoKeepsLineTotal(li: OrderItem)
    ensures OrderItemDtoOf(li).orderPrice * OrderItemDtoOf(li).count == li.TotalPrice()
  {
  }

  /** The lines of an order as response values, one per line, in line order. */
  function OrderItemDtosOf(lines: seq<OrderItem>): (dtos: seq<OrderItemDto>)
    reads lines, ItemsOf(lines)
    ensures |dtos| == |lines|
    ensures forall i :: 0 <= i < |lines| ==>
              && dtos[i].itemName == lines[i].item.name
              && dtos[i].orderPrice == lines[i].orderPrice
              && dtos[i].count == lines[i].count
  {
    if |lines| == 0 then []
    else
      var init := lines[..|lines| - 1];
      assert ItemsOf(init) <= ItemsOf(lines) by {
        forall x | x in ItemsOf(init) ensures x in ItemsOf(lines) {
          var li :| li in init && li.item == x;
          assert li in lines;
        }
      }
      assert lines[|lines| - 1].item in ItemsOf(lines);
      OrderItemDtosOf(init) + [OrderItemDtoOf(lines[|lines| - 1])]
  }

  /** The objects an order projection reads: the order, its member and
      delivery, its lines and their items. */
  function Footprint(o: Order): set<object>
    reads o, o.orderItems
  {
    {o} + (if o.member != null then {o.member} else {})
        + (if o.delivery != null then {o.delivery} else {})
        + (set li | li in o.orderItems :: li as object)
        + ItemsOf(o.orderItems)
  }

  /** An order as a response value: id, date and status of the order, the
      member's username, the delivery's address and the projected lines. */
  function OrderDtoOf(o: Order): (dto: OrderDto)
    requires o.member != null && o.delivery != null
    reads o, o.orderItems, Footprint(o)
    ensures dto.orderId == o.id && dto.orderDate == o.orderDate && dto.orderStatus == o.status
    ensures dto.name == o.member.username && dto.address == o.delivery.address
    ensures dto.orderItems == OrderItemDtosOf(o.orderItems)
  {
    OrderDto(o.id, o.member.username, o.orderDate, o.status, o.delivery.address,
             OrderItemDtosOf(o.orderItems))
  }

  /** The total of the projected lines. */
  function DtoTotal(dtos: seq<OrderItemDto>): int {
    if |dtos| == 0 then 0
    else DtoTotal(dtos[..|dtos| - 1]) + dtos[|dtos| - 1].orderPrice * dtos[|dtos| - 1].count
  }

  /** The projected lines keep the order's total: price times count summed
      over the line values is the sum of the lines' own totals. */
  lemma {:induction false} OrderItemDtosKeepTotal(lines: seq<OrderItem>)
    ensures DtoTotal(OrderItemDtosOf(lines)) == TotalOf(lines)
  {
    if |lines| != 0 {
      var dtos := OrderItemDtosOf(lines);
      OrderItemDtosKeepTotal(lines[..|lines| - 1]);
      assert dtos[..|dtos| - 1] == OrderItemDtosOf(lines[..|lines| - 1]);
    }
  }
}
