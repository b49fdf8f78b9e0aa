/** The response side of the order endpoints: the simple order projection and
    the list maps of the per-entity strategies, and the regrouping of flat
    join rows into one result per order. */
module Api {
  import opened Domain
  import opened OrderQuery
  import QueryDto

  // ---------------------------------------------------------------------
  // Per-entity projections
  // ---------------------------------------------------------------------

  datatype SimpleOrderDto = SimpleOrderDto(orderId: Option<int>, name: string,
                                           orderDate: Option<DateTime>,
                                           orderStatus: Option<OrderStatus>, address: Address)

  /** An order as a simple response value: the order's id, date and status,
      the member's username and the delivery's address. */
  function SimpleOrderDtoOf(o: Order): (dto: SimpleOrderDto)
    requires o.member != null && o.delivery != null
    reads o, o.member, o.delivery
    ensures dto.orderId == o.id && dto.orderDate == o.orderDate && dto.orderStatus == o.status
    ensures dto.name == o.member.username && dto.address == o.delivery.address
  {
    SimpleOrderDto(o.id, o.member.username, o.orderDate, o.status, o.delivery.address)
  }

  /** The member and the delivery of every order are set. */
  predicate Projectable(orders: seq<Order>)
    reads orders
  {
    forall i :: 0 <= i < |orders| ==> orders[i].member != null && orders[i].delivery != null
  }

  /** The lines of all the orders. */
  function LinesOfAll(orders: seq<Order>): set<OrderItem>
    reads orders
  {
    set o, li | o in orders && li in o.orderItems :: li
  }

  /** The members, deliveries and line items of all the orders. */
  function RelatedOf(orders: seq<Order>): set<object>
    reads orders, LinesOfAll(orders)
  {
    (set o | o in orders && o.member != null :: o.member as object)
    + (set o | o in orders && o.delivery != null :: o.delivery as object)
    + (set o, li | o in orders && li in o.orderItems :: li.item as object)
  }

  /** The simple projection of a list of orders: one value per order, in
      list order. */
  function SimpleOrderDtos(orders: seq<Order>): (dtos: seq<SimpleOrderDto>)
    requires Projectable(orders)
    reads orders, LinesOfAll(orders), RelatedOf(orders)
    ensures |dtos| == |orders|
    ensures forall i :: 0 <= i < |orders| ==> dtos[i] == SimpleOrderDtoOf(orders[i])
  {
    if |orders| == 0 then []
    else
      var n := |orders| - 1;
      var o := orders[n];
      ReadsOfPrefix(orders, n);
      var previous := SimpleOrderDtos(orders[..n]);
      assert o in orders;
      assert o.member in RelatedOf(orders) && o.delivery in RelatedOf(orders);
      previous + [SimpleOrderDtoOf(o)]
  }

  /** The full projection of a list of orders: one value per order, in list
      order, each with its projected lines. */
  function OrderDtos(orders: seq<Order>): (dtos: seq<QueryDto.OrderDto>)
    requires Projectable(orders)
    reads orders, LinesOfAll(orders), RelatedOf(orders)
    ensures |dtos| == |orders|
    ensures forall i :: 0 <= i < |orders| ==> dtos[i] == QueryDto.OrderDtoOf(orders[i])
  {
    if |orders| == 0 then []
    else
      var n := |orders| - 1;
      var o := orders[n];
      ReadsOfPrefix(orders, n);
      var previous := OrderDtos(orders[..n]);
      FootprintWithin(orders, n);
      previous + [QueryDto.OrderDtoOf(o)]
  }

  /** Projecting one of the orders reads only what projecting the list reads. */
  lemma FootprintWithin(orders: seq<Order>, n: nat)
    requires n < |orders|
    ensures orders[n] in orders
    ensures forall li :: li in orders[n].orderItems ==> li in LinesOfAll(orders)
    ensures QueryDto.Footprint(orders[n]) <= {orders[n]} + LinesOfAll(orders) + RelatedOf(orders)
  {
    var o := orders[n];
    assert o in orders;
    forall li | li in o.orderItems ensures li in LinesOfAll(orders) && li.item in RelatedOf(orders) {
    }
  }

  /** A prefix of the orders reads no more than the whole list. */
  lemma ReadsOfPrefix(orders: seq<Order>, n: nat)
    requires n <= |orders|
    ensures LinesOfAll(orders[..n]) <= LinesOfAll(orders)
    ensures RelatedOf(orders[..n]) <= RelatedOf(orders)
  {
    assert forall o :: o in orders[..n] ==> o in orders;
  }

  /** The simple and the full projection agree on every root field. */
  lemma SimpleAgreesWithFull(o: Order)
    requires o.member != null && o.delivery != null
    ensures var s, f := SimpleOrderDtoOf(o), QueryDto.OrderDtoOf(o);
            s.orderId == f.orderId && s.name == f.name && s.orderDate == f.orderDate
            && s.orderStatus == f.orderStatus && s.address == f.address
  {
  }

  // ---------------------------------------------------------------------
  // Flat rows regrouped in memory
  // ---------------------------------------------------------------------

  /** The line values of the rows whose key is in class `k`, in row order. */
  ghost function ItemsInClass<K>(rows: seq<OrderFlatDto>, k: K, keyOf: OrderKey -> K)
    : seq<OrderItemQueryDto>
  {
    if |rows| == 0 then []
    else ItemsInClass(rows[..|rows| - 1], k, keyOf)
         + (if keyOf(RowKey(rows[|rows| - 1])) == k then [RowItem(rows[|rows| - 1])] else [])
  }

  /** `key` is the key of the first row of its class. */
  ghost predicate IsFirstKeyOfClass<K>(rows: seq<OrderFlatDto>, key: OrderKey, keyOf: OrderKey -> K)
  {
    exists n :: 0 <= n < |rows| && RowKey(rows[n]) == key &&
      forall m :: 0 <= m < n ==> keyOf(RowKey(rows[m])) != keyOf(key)
  }

  /** The line value of every row, in row order. */
  ghost function RowItems(rows: seq<OrderFlatDto>): seq<OrderItemQueryDto> {
    if |rows| == 0 then [] else RowItems(rows[..|rows| - 1]) + [RowItem(rows[|rows| - 1])]
  }

  /** The line values of all results, one result after the other. */
  ghost function AllItems(dtos: seq<OrderQueryDto>): seq<OrderItemQueryDto> {
    if |dtos| == 0 then [] else AllItems(dtos[..|dtos| - 1]) + dtos[|dtos| - 1].orderItems
  }

  /** Some result has a key in class `k`. */
  ghost predicate HasClass<K>(result: seq<OrderQueryDto>, k: K, keyOf: OrderKey -> K) {
    exists i :: 0 <= i < |result| && keyOf(DtoKey(result[i])) == k
  }

  /** No two results have keys of the same class. */
  ghost predicate DistinctClasses<K>(result: seq<OrderQueryDto>, keyOf: OrderKey -> K) {
    forall i, j :: 0 <= i < j < |result| ==> keyOf(DtoKey(result[i])) != keyOf(DtoKey(result[j]))
  }

  /** Every result is rooted at the first key of its class and holds exactly
      the line values of that class's rows, in row order. */
  ghost predicate FaithfulGroups<K>(result: seq<OrderQueryDto>, rows: seq<OrderFlatDto>,
                                    keyOf: OrderKey -> K)
  {
    forall i :: 0 <= i < |result| ==>
      && IsFirstKeyOfClass(rows, DtoKey(result[i]), keyOf)
      && result[i].orderItems == ItemsInClass(rows, keyOf(DtoKey(result[i])), keyOf)
  }

  /** The key class of every row has a result. */
  ghost predicate CoversRows<K>(result: seq<OrderQueryDto>, rows: seq<OrderFlatDto>,
                                keyOf: OrderKey -> K)
  {
    forall n :: 0 <= n < |rows| ==> HasClass(result, keyOf(RowKey(rows[n])), keyOf)
  }

  /** `result` regroups `rows` by key class: one result per class that
      occurs, each rooted at the first key of its class and holding exactly
      the line values of that class's rows, in row order. */
  ghost predicate Regroups<K>(result: seq<OrderQueryDto>, rows: seq<OrderFlatDto>,
                              keyOf: OrderKey -> K)
  {
    DistinctClasses(result, keyOf) && FaithfulGroups(result, rows, keyOf)
    && CoversRows(result, rows, keyOf)
  }

  /** No rows regroup into no results. */
  lemma RegroupsOfNoRows<K>(result: seq<OrderQueryDto>, keyOf: OrderKey -> K)
    ensures Regroups(result, [], keyOf) <==> result == []
  {
    if |result| != 0 {
      var first := DtoKey(result[0]);
      assert !IsFirstKeyOfClass([], first, keyOf);
    }
  }

  /** The position of the result whose key is in class `k`, or the length
      when there is none. */
  function FindClass<K(==)>(result: seq<OrderQueryDto>, k: K, keyOf: OrderKey -> K): (i: nat)
    ensures i <= |result|
    ensures i < |result| ==> keyOf(DtoKey(result[i])) == k
    ensures i == |result| ==> forall j :: 0 <= j < |result| ==> keyOf(DtoKey(result[j])) != k
  {
    if |result| == 0 then 0
    else if keyOf(DtoKey(result[0])) == k then 0
    else 1 + FindClass(result[1..], k, keyOf)
  }

  /** The line value of `row` appended to the `i`-th result. */
  function JoinGroup(result: seq<OrderQueryDto>, i: nat, row: OrderFlatDto): seq<OrderQueryDto>
    requires i < |result|
  {
    result[i := result[i].(orderItems := result[i].orderItems + [RowItem(row)])]
  }

  /** A new result rooted at the key of `row`, holding its line value. */
  function StartGroup(row: OrderFlatDto): OrderQueryDto {
    OrderQueryDto(row.orderId, row.name, row.orderDate, row.orderStatus, row.address,
                  [RowItem(row)])
  }

  /** Files one more row: its line value joins the result of its key class,
      or starts a new result rooted at its own key. */
  function AddRow<K(==)>(result: seq<OrderQueryDto>, row: OrderFlatDto, keyOf: OrderKey -> K)
    : seq<OrderQueryDto>
  {
    var i := FindClass(result, keyOf(RowKey(row)), keyOf);
    if i < |result| then JoinGroup(result, i, row) else result + [StartGroup(row)]
  }

  /** The flat rows grouped by their root fields, one result per key class.
      Two keys are the same exactly when `keyOf` maps them to the same value. */
  function OrdersV6<K(==)>(flats: seq<OrderFlatDto>, keyOf: OrderKey -> K)
    : (result: seq<OrderQueryDto>)
    ensures Regroups(result, flats, keyOf)
  {
    if |flats| == 0 then []
    else
      var init, last := flats[..|flats| - 1], flats[|flats| - 1];
      var previous := OrdersV6(init, keyOf);
      assert init + [last] == flats;
      AddRowRegroups(previous, init, last, keyOf);
      AddRow(previous, last, keyOf)
  }

  /** Regrouping loses and invents no line: the results hold, over all,
      the line values of the rows, each as often as it occurs. */
  lemma {:induction false} OrdersV6KeepsLines<K>(flats: seq<OrderFlatDto>, keyOf: OrderKey -> K)
    ensures multiset(AllItems(OrdersV6(flats, keyOf))) == multiset(RowItems(flats))
  {
    if |flats| != 0 {
      var init, last := flats[..|flats| - 1], flats[|flats| - 1];
      OrdersV6KeepsLines(init, keyOf);
      AddRowAddsItem(OrdersV6(init, keyOf), last, keyOf);
    }
  }

  /** The results hold as many line values as there are rows. */
  lemma OrdersV6KeepsLineCount<K>(flats: seq<OrderFlatDto>, keyOf: OrderKey -> K)
    ensures |AllItems(OrdersV6(flats, keyOf))| == |flats|
  {
    RowItemsLength(flats);
    OrdersV6KeepsLines(flats, keyOf);
    assert |multiset(AllItems(OrdersV6(flats, keyOf)))| == |multiset(RowItems(flats))|;
  }

  lemma {:induction false} RowItemsLength(rows: seq<OrderFlatDto>)
    ensures |RowItems(rows)| == |rows|
  {
    if |rows| != 0 {
      RowItemsLength(rows[..|rows| - 1]);
    }
  }

  lemma ItemsInClassSnoc<K>(rows: seq<OrderFlatDto>, row: OrderFlatDto, k: K, keyOf: OrderKey -> K)
    ensures ItemsInClass(rows + [row], k, keyOf)
            == ItemsInClass(rows, k, keyOf)
               + (if keyOf(RowKey(row)) == k then [RowItem(row)] else [])
  {
    assert (rows + [row])[..|rows|] == rows;
  }

  lemma {:induction false} ItemsInAbsentClass<K>(rows: seq<OrderFlatDto>, k: K, keyOf: OrderKey -> K)
    requires forall m :: 0 <= m < |rows| ==> keyOf(RowKey(rows[m])) != k
    ensures ItemsInClass(rows, k, keyOf) == []
  {
    if |rows| != 0 {
      ItemsInAbsentClass(rows[..|rows| - 1], k, keyOf);
    }
  }

  lemma FirstKeyOfLongerRows<K>(rows: seq<OrderFlatDto>, row: OrderFlatDto, key: OrderKey,
                                keyOf: OrderKey -> K)
    requires IsFirstKeyOfClass(rows, key, keyOf)
    ensures IsFirstKeyOfClass(rows + [row], key, keyOf)
  {
    var n :| 0 <= n < |rows| && RowKey(rows[n]) == key &&
             forall m :: 0 <= m < n ==> keyOf(RowKey(rows[m])) != keyOf(key);
    assert (rows + [row])[n] == rows[n];
    assert forall m :: 0 <= m < n ==> (rows + [row])[m] == rows[m];
  }

  /** Filing a row keeps every earlier result rooted at the first key of its class. */
  lemma FirstKeysOfLongerRows<K>(result: seq<OrderQueryDto>, rows: seq<OrderFlatDto>,
                                 row: OrderFlatDto, keyOf: OrderKey -> K)
    requires FaithfulGroups(result, rows, keyOf)
    ensures forall j :: 0 <= j < |result| ==> IsFirstKeyOfClass(rows + [row], DtoKey(result[j]), keyOf)
  {
    forall j | 0 <= j < |result|
      ensures IsFirstKeyOfClass(rows + [row], DtoKey(result[j]), keyOf)
    {
      FirstKeyOfLongerRows(rows, row, DtoKey(result[j]), keyOf);
    }
  }

  /** A row whose key class has a result extends that result only. */
  lemma JoinRegroups<K>(result: seq<OrderQueryDto>, rows: seq<OrderFlatDto>,
                        row: OrderFlatDto, keyOf: OrderKey -> K, i: nat)
    requires Regroups(result, rows, keyOf)
    requires i < |result| && keyOf(DtoKey(result[i])) == keyOf(RowKey(row))
    ensures Regroups(JoinGroup(result, i, row), rows + [row], keyOf)
  {
    var result' := JoinGroup(result, i, row);
    assert forall j :: 0 <= j < |result| ==> DtoKey(result'[j]) == DtoKey(result[j]);
    assert DistinctClasses(result', keyOf);
    JoinKeepsGroupsFaithful(result, rows, row, keyOf, i);
    JoinKeepsRowsCovered(result, rows, row, keyOf, i);
  }

  lemma JoinKeepsGroupsFaithful<K>(result: seq<OrderQueryDto>, rows: seq<OrderFlatDto>,
                                   row: OrderFlatDto, keyOf: OrderKey -> K, i: nat)
    requires DistinctClasses(result, keyOf) && FaithfulGroups(result, rows, keyOf)
    requires i < |result| && keyOf(DtoKey(result[i])) == keyOf(RowKey(row))
    ensures FaithfulGroups(JoinGroup(result, i, row), rows + [row], keyOf)
  {
    var k := keyOf(RowKey(row));
    var rows', result' := rows + [row], JoinGroup(result, i, row);
    FirstKeysOfLongerRows(result, rows, row, keyOf);
    forall j | 0 <= j < |result'|
      ensures IsFirstKeyOfClass(rows', DtoKey(result'[j]), keyOf)
      ensures result'[j].orderItems == ItemsInClass(rows', keyOf(DtoKey(result'[j])), keyOf)
    {
      assert DtoKey(result'[j]) == DtoKey(result[j]);
      ItemsInClassSnoc(rows, row, keyOf(DtoKey(result[j])), keyOf);
      if j != i {
        assert result'[j] == result[j];
        assert keyOf(DtoKey(result[j])) != k by {
          if j < i {} else {}
        }
      }
    }
  }

  lemma JoinKeepsRowsCovered<K>(result: seq<OrderQueryDto>, rows: seq<OrderFlatDto>,
                                row: OrderFlatDto, keyOf: OrderKey -> K, i: nat)
    requires CoversRows(result, rows, keyOf)
    requires i < |result| && keyOf(DtoKey(result[i])) == keyOf(RowKey(row))
    ensures CoversRows(JoinGroup(result, i, row), rows + [row], keyOf)
  {
    var rows', result' := rows + [row], JoinGroup(result, i, row);
    forall n | 0 <= n < |rows'| ensures HasClass(result', keyOf(RowKey(rows'[n])), keyOf) {
      if n < |rows| {
        assert rows'[n] == rows[n];
        assert HasClass(result, keyOf(RowKey(rows[n])), keyOf);
        var j :| 0 <= j < |result| && keyOf(DtoKey(result[j])) == keyOf(RowKey(rows[n]));
        assert DtoKey(result'[j]) == DtoKey(result[j]);
      } else {
        assert DtoKey(result'[i]) == DtoKey(result[i]);
      }
    }
  }

  /** A row whose key class has no result starts a new one, rooted at its key. */
  lemma StartRegroups<K>(result: seq<OrderQueryDto>, rows: seq<OrderFlatDto>,
                                                row: OrderFlatDto, keyOf: OrderKey -> K)
    requires Regroups(result, rows, keyOf)
    requires forall j :: 0 <= j < |result| ==> keyOf(DtoKey(result[j])) != keyOf(RowKey(row))
    ensures Regroups(result + [StartGroup(row)], rows + [row], keyOf)
  {
    var k := keyOf(RowKey(row));
    var rows', result' := rows + [row], result + [StartGroup(row)];
    assert DtoKey(StartGroup(row)) == RowKey(row);
    forall m | 0 <= m < |rows| ensures keyOf(RowKey(rows[m])) != k {
      assert HasClass(result, keyOf(RowKey(rows[m])), keyOf);
    }
    assert forall m :: 0 <= m < |rows| ==> rows'[m] == rows[m];
    assert rows'[|rows|] == row;
    ItemsInAbsentClass(rows, k, keyOf);
    FirstKeysOfLongerRows(result, rows, row, keyOf);
    forall j | 0 <= j < |result'|
      ensures IsFirstKeyOfClass(rows', DtoKey(result'[j]), keyOf)
      ensures result'[j].orderItems == ItemsInClass(rows', keyOf(DtoKey(result'[j])), keyOf)
    {
      ItemsInClassSnoc(rows, row, keyOf(DtoKey(result'[j])), keyOf);
      if j < |result| {
        assert result'[j] == result[j];
      } else {
        assert result'[j] == StartGroup(row);
      }
    }
    forall n | 0 <= n < |rows'| ensures HasClass(result', keyOf(RowKey(rows'[n])), keyOf) {
      if n < |rows| {
        assert HasClass(result, keyOf(RowKey(rows[n])), keyOf);
        var j :| 0 <= j < |result| && keyOf(DtoKey(result[j])) == keyOf(RowKey(rows[n]));
        assert result'[j] == result[j];
      } else {
        assert result'[|result|] == StartGroup(row);
      }
    }
  }

  /** Filing one more row keeps the regrouping. */
  lemma AddRowRegroups<K>(result: seq<OrderQueryDto>, rows: seq<OrderFlatDto>,
                              row: OrderFlatDto, keyOf: OrderKey -> K)
    requires Regroups(result, rows, keyOf)
    ensures Regroups(AddRow(result, row, keyOf), rows + [row], keyOf)
  {
    var i := FindClass(result, keyOf(RowKey(row)), keyOf);
    if i < |result| {
      JoinRegroups(result, rows, row, keyOf, i);
    } else {
      StartRegroups(result, rows, row, keyOf);
    }
  }

  lemma {:induction false} JoinAddsItem(dtos: seq<OrderQueryDto>, i: nat, row: OrderFlatDto)
    requires i < |dtos|
    ensures multiset(AllItems(JoinGroup(dtos, i, row))) == multiset(AllItems(dtos)) + multiset{RowItem(row)}
  {
    var updated := JoinGroup(dtos, i, row);
    var n := |dtos| - 1;
    if i == n {
      assert updated[..n] == dtos[..n];
    } else {
      assert updated[..n] == JoinGroup(dtos[..n], i, row);
      JoinAddsItem(dtos[..n], i, row);
    }
  }

  /** Filing one more row adds exactly its line value to the results. */
  lemma AddRowAddsItem<K>(result: seq<OrderQueryDto>, row: OrderFlatDto, keyOf: OrderKey -> K)
    ensures multiset(AllItems(AddRow(result, row, keyOf))) == multiset(AllItems(result)) + multiset{RowItem(row)}
  {
    var i := FindClass(result, keyOf(RowKey(row)), keyOf);
    if i < |result| {
      JoinAddsItem(result, i, row);
    } else {
      assert (result + [StartGroup(row)])[..|result|] == result;
    }
  }
}
