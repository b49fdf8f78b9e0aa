/** The rows and results of the direct-to-response queries: one flat row per
    (order, line) pair, and the grouped order result with its line values. */
module OrderQuery {
  import opened Domain

  /** One row of the flat join: an order's root fields next to one of its lines. */
  datatype OrderFlatDto = OrderFlatDto(orderId: int, name: string, orderDate: DateTime,
                                       orderStatus: OrderStatus, address: Address,
                                       itemName: string, orderPrice: int, count: int)

  datatype OrderItemQueryDto = OrderItemQueryDto(orderId: int, itemName: string,
                                                 orderPrice: int, count: int)

  datatype OrderQueryDto = OrderQueryDto(orderId: int, name: string, orderDate: DateTime,
                                         orderStatus: OrderStatus, address: Address,
                                         orderItems: seq<OrderItemQueryDto>)

  /** The five root fields of an order result: the grouping key of the flat rows. */
  datatype OrderKey = OrderKey(orderId: int, name: string, orderDate: DateTime,
                               orderStatus: OrderStatus, address: Address)

  /** The grouping key of a row: its five root fields. */
  function RowKey(row: OrderFlatDto): (key: OrderKey)
    ensures key.orderId == row.orderId && key.name == row.name && key.orderDate == row.orderDate
    ensures key.orderStatus == row.orderStatus && key.address == row.address
  {
    OrderKey(row.orderId, row.name, row.orderDate, row.orderStatus, row.address)
  }

  /** The line value of a row: its order id and its three line fields. */
  function RowItem(row: OrderFlatDto): (item: OrderItemQueryDto)
    ensures item.orderId == row.orderId && item.itemName == row.itemName
    ensures item.orderPrice == row.orderPrice && item.count == row.count
  {
    OrderItemQueryDto(row.orderId, row.itemName, row.orderPrice, row.count)
  }

  function DtoKey(dto: OrderQueryDto): OrderKey {
    OrderKey(dto.orderId, dto.name, dto.orderDate, dto.orderStatus, dto.address)
  }
}
