/** The YapPerce order service: orders and their items in MySQL, product stock in
    the product service, shipments requested from ShipXpress. Every call to a
    sibling service is a parameter. Amounts are exact reals. */
module OrderService {
  import opened Wrappers
  import opened Text

  const Ordered: string := "Dipesan"
  const InDelivery: string := "Dalam Pengiriman"
  const Finished: string := "Selesai"
  const Delivered: string := "Delivered"
  const ProductNotFound: string := "Product not found"
  const InsufficientStock: string := "Insufficient stock"
  const OrderNotFound: string := "Order not found"
  const UserNotFound: string := "User not found for shipment"
  const ShipmentFailed: string := "Failed to create shipment"
  const Warehouse: string := "YapPerce Warehouse"
  const MarketplaceOrder: string := "Marketplace Order"
  const Processing: string := "Processing"
  const CreateOrderError: string := "Error creating order: "
  const ShipmentStatusError: string := "Error updating shipment status: "
  const OrderStatusError: string := "Error updating order status: "
  const SendOrderError: string := "Error sending order to ShipXpress: "

  /** A nullable string column or field is truthy when present and non-empty. */
  predicate Truthy(s: Option<string>) {
    s.Some? && s.value != ""
  }

  /** A row of `orders`; `shipment_status` and `shipment_id` are NULL until a
      shipment is requested or reported. */
  datatype Order = Order(orderId: nat, userId: int, totalAmount: real, status: string,
                         shipmentStatus: Option<string>, shipmentId: Option<string>)

  /** A row of `order_items`. */
  datatype OrderItem = OrderItem(orderItemId: nat, orderId: nat, productId: int, quantity: int, price: real)

  /** One `OrderItemInput` of `createOrder`, with the price the caller supplies. */
  datatype ItemInput = ItemInput(productId: int, quantity: int, price: real)

  function ItemRow(id: nat, orderId: nat, item: ItemInput): OrderItem {
    OrderItem(id, orderId, item.productId, item.quantity, item.price)
  }

  /** The order service's tables with their auto-increment counters. A counter is
      not rolled back with a transaction. */
  class OrderDb {
    var orders: map<nat, Order>
    var nextOrderId: nat
    var orderItems: map<nat, OrderItem>
    var nextItemId: nat

    /** Every row sits under its own key, below the table's counter. */
    ghost predicate Valid() reads this {
      (forall k :: k in orders ==> k < nextOrderId && orders[k].orderId == k) &&
      (forall k :: k in orderItems ==> k < nextItemId && orderItems[k].orderItemId == k)
    }

    constructor ()
      ensures Valid() && orders == map[] && orderItems == map[]
      ensures nextOrderId == 1 && nextItemId == 1
    {
      orders, orderItems := map[], map[];
      nextOrderId, nextItemId := 1, 1;
    }

    /** `INSERT INTO orders (user_id, total_amount, status)`: the shipment columns
        start NULL; the row takes the counter's value, which was free. */
    method InsertOrder(userId: int, total: real, status: string) returns (id: nat)
      requires Valid()
      modifies this`orders, this`nextOrderId
      ensures Valid()
      ensures id == old(nextOrderId) && id !in old(orders) && nextOrderId == id + 1
      ensures orders == old(orders)[id := Order(id, userId, total, status, None, None)]
    {
      id := nextOrderId;
      orders := orders[id := Order(id, userId, total, status, None, None)];
      nextOrderId := id + 1;
    }

    /** `INSERT INTO order_items (order_id, product_id, quantity, price)`. */
    method InsertItem(orderId: nat, item: ItemInput) returns (id: nat)
      requires Valid()
      modifies this`orderItems, this`nextItemId
      ensures Valid()
      ensures id == old(nextItemId) && id !in old(orderItems) && nextItemId == id + 1
      ensures orderItems == old(orderItems)[id := ItemRow(id, orderId, item)]
    {
      id := nextItemId;
      orderItems := orderItems[id := ItemRow(id, orderId, item)];
      nextItemId := id + 1;
    }
  }

  /** The product service's stock, by product id. */
  class Catalog {
    var stock: map<int, int>

    constructor (stock: map<int, int>)
      ensures this.stock == stock
    {
      this.stock := stock;
    }
  }

  // ---- createOrder -----------------------------------------------------------

  function Line(item: ItemInput): real {
    item.price * item.quantity as real
  }

  /** The order total: price times quantity summed over the items, in order. */
  function Total(items: seq<ItemInput>): real {
    if items == [] then 0.0 else Total(items[..|items| - 1]) + Line(items[|items| - 1])
  }

  lemma {:induction false} TotalAppend(a: seq<ItemInput>, b: seq<ItemInput>)
    ensures Total(a + b) == Total(a) + Total(b)
    decreases |b|
  {
    if b == [] {
      assert a + b == a;
    } else {
      var n := |b| - 1;
      assert (a + b)[..|a + b| - 1] == a + b[..n];
      TotalAppend(a, b[..n]);
    }
  }

  /** With caller-supplied prices and quantities both non-negative, the total is too. */
  lemma {:induction false} TotalNonNegative(items: seq<ItemInput>)
    requires forall i :: 0 <= i < |items| ==> items[i].price >= 0.0 && items[i].quantity >= 0
    ensures Total(items) >= 0.0
  {
    if items != [] {
      TotalNonNegative(items[..|items| - 1]);
    }
  }

  /** The loop `totalAmount += item.price * item.quantity`. */
  method SumOrder(items: seq<ItemInput>) returns (total: real)
    ensures total == Total(items)
  {
    total := 0.0;
    var i := 0;
    while i < |items|
      invariant 0 <= i <= |items|
      invariant total == Total(items[..i])
    {
      assert items[..i + 1][..i] == items[..i];
      total := total + items[i].price * items[i].quantity as real;
      i := i + 1;
    }
    assert items[..|items|] == items;
  }

  /** `updateProductStock` on the stock it reads: the product must exist and keep a
      non-negative stock; then exactly the new stock is written. */
  function StockUpdate(stock: map<int, int>, productId: int, quantity: int): Result<map<int, int>> {
    if productId !in stock then Err(ProductNotFound)
    else if stock[productId] - quantity < 0 then Err(InsufficientStock)
    else Ok(stock[productId := stock[productId] - quantity])
  }

  lemma StockUpdateCases(stock: map<int, int>, productId: int, quantity: int)
    ensures StockUpdate(stock, productId, quantity).Err? <==>
      productId !in stock || stock[productId] < quantity
    ensures productId !in stock ==> StockUpdate(stock, productId, quantity) == Err(ProductNotFound)
    ensures productId in stock && stock[productId] < quantity ==>
      StockUpdate(stock, productId, quantity) == Err(InsufficientStock)
    ensures StockUpdate(stock, productId, quantity).Ok? ==>
      var s := StockUpdate(stock, productId, quantity).value;
      s.Keys == stock.Keys && s[productId] == stock[productId] - quantity && s[productId] >= 0 &&
      forall p :: p in stock && p != productId ==> s[p] == stock[p]
  {
  }

  /** `updateProductStock`: reads the stock, refuses a missing product or a stock
      that would go negative (writing nothing), otherwise writes the new stock. */
  method UpdateProductStock(catalog: Catalog, productId: int, quantity: int) returns (r: Result<bool>)
    modifies catalog`stock
    ensures var s := StockUpdate(old(catalog.stock), productId, quantity);
      (s.Ok? ==> r == Ok(true) && catalog.stock == s.value) &&
      (s.Err? ==> r == Err(s.msg) && catalog.stock == old(catalog.stock))
  {
    if productId !in catalog.stock {
      return Err(ProductNotFound);
    }
    var newStock := catalog.stock[productId] - quantity;
    if newStock < 0 {
      return Err(InsufficientStock);
    }
    catalog.stock := catalog.stock[productId := newStock];
    r := Ok(true);
  }

  /** The stock after the per-item updates of `createOrder`, and the first failure.
      Updates stop at the first failing item; those before it stay written. */
  function RunStock(stock: map<int, int>, items: seq<ItemInput>): (map<int, int>, Option<string>) {
    if items == [] then (stock, None)
    else
      var before := RunStock(stock, items[..|items| - 1]);
      if before.1.Some? then before
      else
        var item := items[|items| - 1];
        match StockUpdate(before.0, item.productId, item.quantity)
        case Ok(s) => (s, None)
        case Err(m) => (before.0, Some(m))
  }

  /** Once an item has failed, the later items change nothing. */
  lemma {:induction false} RunStockStops(stock: map<int, int>, items: seq<ItemInput>, j: nat)
    requires j <= |items| && RunStock(stock, items[..j]).1.Some?
    ensures RunStock(stock, items) == RunStock(stock, items[..j])
    decreases |items|
  {
    if j < |items| {
      var n := |items| - 1;
      assert items[..n][..j] == items[..j];
      RunStockStops(stock, items[..n], j);
    } else {
      assert items[..j] == items;
    }
  }

  /** Stock never goes negative through `createOrder`. */
  lemma {:induction false} RunStockNonNegative(stock: map<int, int>, items: seq<ItemInput>)
    requires forall p :: p in stock ==> stock[p] >= 0
    ensures var s := RunStock(stock, items).0; s.Keys == stock.Keys && forall p :: p in s ==> s[p] >= 0
  {
    if items != [] {
      RunStockNonNegative(stock, items[..|items| - 1]);
    }
  }

  /** Writes are not undone: when the second of two items names a missing product,
      the first item's stock stays reduced although the order fails. */
  lemma EarlierStockStays(stock: map<int, int>, first: ItemInput, second: ItemInput)
    requires first.productId in stock && stock[first.productId] >= first.quantity
    requires second.productId !in stock
    ensures RunStock(stock, [first, second]) ==
      (stock[first.productId := stock[first.productId] - first.quantity], Some(ProductNotFound))
  {
    var reduced := stock[first.productId := stock[first.productId] - first.quantity];
    assert [first, second][..1] == [first];
    assert [first][..0] == [];
    assert RunStock(stock, [first]) == (reduced, None);
    assert second.productId !in reduced;
  }

  /** The order_items rows inserted for `items`, the j-th under key `base + j`. */
  function ItemsTable(t: map<nat, OrderItem>, base: nat, orderId: nat, items: seq<ItemInput>): map<nat, OrderItem> {
    if items == [] then t
    else
      var n := |items| - 1;
      ItemsTable(t, base, orderId, items[..n])[base + n := ItemRow(base + n, orderId, items[n])]
  }

  /** Exactly one row per input item, with its product, quantity and price, under
      fresh keys; the rows that were there stay. */
  lemma {:induction false} ItemsTableRows(t: map<nat, OrderItem>, base: nat, orderId: nat, items: seq<ItemInput>)
    requires forall k :: k in t ==> k < base
    ensures var r := ItemsTable(t, base, orderId, items);
      (forall k :: k in r <==> k in t || base <= k < base + |items|) &&
      (forall k :: k in t ==> r[k] == t[k]) &&
      (forall j :: 0 <= j < |items| ==>
        r[base + j] == OrderItem(base + j, orderId, items[j].productId, items[j].quantity, items[j].price))
  {
    if items != [] {
      var n := |items| - 1;
      ItemsTableRows(t, base, orderId, items[..n]);
    }
  }

  /** `createOrder`. The total of the caller's prices is stored with status
      "Dipesan", then each item is inserted and its stock updated. A failing stock
      update rolls back the order and its items but not the stock already written
      for earlier items, and fails with "Error creating order: " and the reason. */
  method CreateOrder(db: OrderDb, catalog: Catalog, userId: int, items: seq<ItemInput>) returns (r: Result<Order>)
    requires db.Valid()
    modifies db`orders, db`nextOrderId, db`orderItems, db`nextItemId, catalog`stock
    ensures db.Valid()
    ensures catalog.stock == RunStock(old(catalog.stock), items).0
    ensures db.nextOrderId == old(db.nextOrderId) + 1
    ensures old(db.nextItemId) <= db.nextItemId <= old(db.nextItemId) + |items|
    ensures RunStock(old(catalog.stock), items).1.None? ==> db.nextItemId == old(db.nextItemId) + |items|
    ensures RunStock(old(catalog.stock), items).1.Some? ==>
      r == Err(CreateOrderError + RunStock(old(catalog.stock), items).1.value) &&
      db.orders == old(db.orders) && db.orderItems == old(db.orderItems)
    ensures RunStock(old(catalog.stock), items).1.None? ==>
      var id := old(db.nextOrderId);
      db.orders == old(db.orders)[id := Order(id, userId, Total(items), Ordered, None, None)] &&
      db.orderItems == ItemsTable(old(db.orderItems), old(db.nextItemId), id, items) &&
      r == Ok(db.orders[id])
  {
    var total := SumOrder(items);
    var savedOrders, savedItems := db.orders, db.orderItems;
    var id := db.InsertOrder(userId, total, Ordered);
    var base := db.nextItemId;
    var i := 0;
    while i < |items|
      invariant 0 <= i <= |items|
      invariant db.Valid()
      invariant db.orders == savedOrders[id := Order(id, userId, total, Ordered, None, None)]
      invariant db.nextOrderId == id + 1
      invariant db.orderItems == ItemsTable(savedItems, base, id, items[..i])
      invariant db.nextItemId == base + i
      invariant RunStock(old(catalog.stock), items[..i]) == (catalog.stock, None)
    {
      assert items[..i + 1][..i] == items[..i];
      var _ := db.InsertItem(id, items[i]);
      var ok := UpdateProductStock(catalog, items[i].productId, items[i].quantity);
      if ok.Err? {
        db.orders, db.orderItems := savedOrders, savedItems;
        RunStockStops(old(catalog.stock), items, i + 1);
        return Err(CreateOrderError + ok.msg);
      }
      i := i + 1;
    }
    assert items[..|items|] == items;
    r := Ok(db.orders[id]);
  }

  // ---- shipment status -------------------------------------------------------

  /** `updateOrderStatus`: sets any status the caller gives; an unknown id changes
      nothing and fails on the read-back. */
  method UpdateOrderStatus(db: OrderDb, id: nat, status: string) returns (r: Result<Order>)
    requires db.Valid()
    modifies db`orders
    ensures db.Valid()
    ensures id !in old(db.orders) ==> r == Err(OrderStatusError + OrderNotFound) && db.orders == old(db.orders)
    ensures id in old(db.orders) ==>
      db.orders == old(db.orders)[id := old(db.orders)[id].(status := status)] && r == Ok(db.orders[id])
  {
    if id in db.orders {
      db.orders := db.orders[id := db.orders[id].(status := status)];
    }
    if id !in db.orders {
      return Err(OrderStatusError + OrderNotFound);
    }
    r := Ok(db.orders[id]);
  }

  /** The order status a shipment status implies. */
  function OrderStatusFor(shipmentStatus: string): (r: string)
    ensures r == Finished <==> shipmentStatus == Delivered || shipmentStatus == Finished
    ensures r == Finished || r == InDelivery
  {
    if shipmentStatus == Delivered || shipmentStatus == Finished then Finished else InDelivery
  }

  /** The order with a shipment status recorded and its order status mapped from it. */
  function WithShipmentStatus(order: Order, shipmentStatus: string): (r: Order)
    ensures r.shipmentStatus == Some(shipmentStatus) && r.status == OrderStatusFor(shipmentStatus)
    ensures r.(shipmentStatus := order.shipmentStatus, status := order.status) == order
  {
    order.(shipmentStatus := Some(shipmentStatus), status := OrderStatusFor(shipmentStatus))
  }

  /** Recording a shipment status is idempotent. */
  lemma WithShipmentStatusIdempotent(order: Order, shipmentStatus: string)
    ensures WithShipmentStatus(WithShipmentStatus(order, shipmentStatus), shipmentStatus) ==
      WithShipmentStatus(order, shipmentStatus)
  {
  }

  /** `updateShipmentStatus`: the two UPDATEs change nothing for an unknown id,
      which then fails on the read-back. */
  method UpdateShipmentStatus(db: OrderDb, id: nat, shipmentStatus: string) returns (r: Result<Order>)
    requires db.Valid()
    modifies db`orders
    ensures db.Valid()
    ensures id !in old(db.orders) ==> r == Err(ShipmentStatusError + OrderNotFound) && db.orders == old(db.orders)
    ensures id in old(db.orders) ==>
      db.orders == old(db.orders)[id := WithShipmentStatus(old(db.orders)[id], shipmentStatus)] &&
      r == Ok(db.orders[id])
  {
    if id in db.orders {
      db.orders := db.orders[id := db.orders[id].(shipmentStatus := Some(shipmentStatus))];
    }
    var orderStatus := InDelivery;
    if shipmentStatus == Delivered || shipmentStatus == Finished {
      orderStatus := Finished;
    }
    if id in db.orders {
      db.orders := db.orders[id := db.orders[id].(status := orderStatus)];
    }
    if id !in db.orders {
      return Err(ShipmentStatusError + OrderNotFound);
    }
    r := Ok(db.orders[id]);
  }

  /** `fetchLatestTrackingStatus` on the statuses of the list ShipXpress returns
      (a failed request answers as an empty list): the status of the LAST entry. */
  function LatestTrackingStatus(statuses: seq<string>): (r: Option<string>)
    ensures r.None? <==> statuses == []
    ensures r.Some? ==> r.value == statuses[|statuses| - 1]
  {
    if |statuses| == 0 then None else Some(statuses[|statuses| - 1])
  }

  /** The status `fetchLatestTrackingStatus` is evidently meant to read: ShipXpress
      lists a shipment's tracking rows newest first, so the latest is the FIRST entry. */
  function NewestTrackingStatus(statuses: seq<string>): (r: Option<string>)
    ensures r.None? <==> statuses == []
    ensures r.Some? ==> r.value == statuses[0]
  {
    if |statuses| == 0 then None else Some(statuses[0])
  }

  /** The `Order.shipment_status` resolver. Without a shipment id or a truthy latest
      tracking status it answers the stored value and writes nothing; otherwise it
      answers the latest status and, when that differs from the stored one, records
      it with the mapped order status. */
  method ShipmentStatusOf(db: OrderDb, parent: Order, statuses: seq<string>) returns (r: Option<string>)
    requires db.Valid()
    modifies db`orders
    ensures db.Valid()
    ensures !Truthy(parent.shipmentId) || !Truthy(LatestTrackingStatus(statuses)) ==>
      r == parent.shipmentStatus && db.orders == old(db.orders)
    ensures Truthy(parent.shipmentId) && Truthy(LatestTrackingStatus(statuses)) ==>
      var latest := LatestTrackingStatus(statuses);
      r == latest &&
      db.orders == (if latest != parent.shipmentStatus && parent.orderId in old(db.orders)
                    then old(db.orders)[parent.orderId := WithShipmentStatus(old(db.orders)[parent.orderId], latest.value)]
                    else old(db.orders))
  {
    if !Truthy(parent.shipmentId) {
      return parent.shipmentStatus;
    }
    var latest := LatestTrackingStatus(statuses);
    if !Truthy(latest) {
      return parent.shipmentStatus;
    }
    if latest != parent.shipmentStatus && parent.orderId in db.orders {
      db.orders := db.orders[parent.orderId := WithShipmentStatus(db.orders[parent.orderId], latest.value)];
    }
    r := latest;
  }

  // ---- the shipment request --------------------------------------------------

  /** The fields of the user service's `user` that the request reads. */
  datatype UserInfo = UserInfo(address: Option<string>)

  /** The variables of ShipXpress's `createShipment`; `vehicle_id` is always null. */
  datatype ShipmentRequest = ShipmentRequest(customerId: int, origin: string, destination: string,
                                             shipmentType: string, weight: int, status: string)

  /** ShipXpress's answer: GraphQL errors (the first one's message, if any) or no
      shipment, or the created shipment's id and status. */
  datatype ShipmentAnswer = Rejected(message: Option<string>) | Created(shipmentId: Option<string>, status: Option<string>)

  /** The sum of the items' quantities. */
  function Weight(items: seq<OrderItem>): int {
    if items == [] then 0 else items[0].quantity + Weight(items[1..])
  }

  lemma {:induction false} WeightAppend(a: seq<OrderItem>, b: seq<OrderItem>)
    ensures Weight(a + b) == Weight(a) + Weight(b)
  {
    if a == [] {
      assert a + b == b;
    } else {
      assert (a + b)[1..] == a[1..] + b;
      WeightAppend(a[1..], b);
    }
  }

  /** The weight does not depend on the order of the items. */
  lemma {:induction false} WeightPermutation(a: seq<OrderItem>, b: seq<OrderItem>)
    requires multiset(a) == multiset(b)
    ensures Weight(a) == Weight(b)
    decreases |a|
  {
    if a == [] {
      assert |b| == |multiset(b)| == 0;
    } else {
      var x := a[0];
      assert x in multiset(b);
      var i :| 0 <= i < |b| && b[i] == x;
      var rest := b[..i] + b[i + 1..];
      assert b == b[..i] + ([x] + b[i + 1..]);
      assert a == [x] + a[1..];
      assert multiset(a) == multiset{x} + multiset(a[1..]);
      assert multiset(b) == multiset(b[..i]) + multiset{x} + multiset(b[i + 1..]);
      assert multiset(rest) == multiset(b[..i]) + multiset(b[i + 1..]);
      assert multiset(a[1..]) == multiset(a) - multiset{x};
      assert multiset(rest) == multiset(b) - multiset{x};
      WeightPermutation(a[1..], rest);
      WeightAppend(b[..i], [x] + b[i + 1..]);
      WeightAppend(b[..i], b[i + 1..]);
      assert ([x] + b[i + 1..])[1..] == b[i + 1..];
    }
  }

  /** `user.address`, or "-" when it is missing, empty, "-" or only white space. */
  function DestinationFor(address: Option<string>): string {
    if address.None? || address.value == "" || address.value == "-" || Trim(address.value) == "" then "-"
    else address.value
  }

  lemma DestinationCases(address: Option<string>)
    ensures address.Some? && address.value != "-" && !IsBlank(address.value) ==> DestinationFor(address) == address.value
    ensures address.None? || address.value == "-" || IsBlank(address.value) ==> DestinationFor(address) == "-"
    ensures DestinationFor(address) != "" && !IsBlank(DestinationFor(address))
  {
    if address.Some? {
      TrimEmptyIffBlank(address.value);
    }
    assert !IsJsWhitespace("-"[0]);
  }

  /** The request the `sendOrderToShipXpress` helper posts, or its failure when the
      user service does not know the order's user. */
  function ShipmentRequestFor(order: Order, items: seq<OrderItem>, user: Option<UserInfo>): (r: Result<ShipmentRequest>) {
    if user.None? then Err(UserNotFound)
    else
      var weight := Weight(items);
      Ok(ShipmentRequest(order.userId, Warehouse, DestinationFor(user.value.address), MarketplaceOrder,
                         if weight == 0 then 1 else weight, Processing))
  }

  /** The request goes out exactly when the user is known; it names the order's user
      as customer, the warehouse as origin, type "Marketplace Order" and status
      "Processing", and weighs the items' quantities, at least 1 when none is negative. */
  lemma RequestShape(order: Order, items: seq<OrderItem>, user: Option<UserInfo>)
    ensures ShipmentRequestFor(order, items, user).Err? <==> user.None?
    ensures user.None? ==> ShipmentRequestFor(order, items, user) == Err(UserNotFound)
    ensures user.Some? ==>
      var q := ShipmentRequestFor(order, items, user).value;
      q.customerId == order.userId && q.origin == Warehouse && q.shipmentType == MarketplaceOrder &&
      q.status == Processing && q.destination == DestinationFor(user.value.address) &&
      (Weight(items) != 0 ==> q.weight == Weight(items)) && (Weight(items) == 0 ==> q.weight == 1)
  {
  }

  lemma {:induction false} WeightNonNegative(items: seq<OrderItem>)
    requires forall i :: 0 <= i < |items| ==> items[i].quantity >= 0
    ensures Weight(items) >= 0
  {
    if items != [] {
      WeightNonNegative(items[1..]);
    }
  }

  /** `errors?.[0]?.message || 'Failed to create shipment'`. */
  function FailureMessage(message: Option<string>): (r: string)
    ensures Truthy(message) ==> r == message.value
    ensures !Truthy(message) ==> r == ShipmentFailed
  {
    if Truthy(message) then message.value else ShipmentFailed
  }

  /** A failed shipment request always carries a non-empty reason: the message
      ShipXpress gave, or the fixed fallback. */
  lemma FailureMessageNeverEmpty(message: Option<string>)
    ensures FailureMessage(message) != ""
    ensures FailureMessage(message) == ShipmentFailed || Some(FailureMessage(message)) == message
  {
  }

  /** The rows `SELECT * FROM order_items WHERE order_id = ?` returns, each once, in
      no particular order. */
  ghost predicate OrderRows(t: map<nat, OrderItem>, orderId: nat, items: seq<OrderItem>) {
    (forall x :: x in items <==> x.orderItemId in t && t[x.orderItemId] == x && x.orderId == orderId) &&
    (forall i, j :: 0 <= i < j < |items| ==> items[i].orderItemId != items[j].orderItemId)
  }

  method ItemsOfOrder(db: OrderDb, orderId: nat) returns (items: seq<OrderItem>)
    requires db.Valid()
    ensures OrderRows(db.orderItems, orderId, items)
  {
    var t := db.orderItems;
    items := [];
    var rest := t.Keys;
    while rest != {}
      invariant rest <= t.Keys
      invariant forall x :: x in items <==>
        x.orderItemId in t && x.orderItemId !in rest && t[x.orderItemId] == x && x.orderId == orderId
      invariant forall i, j :: 0 <= i < j < |items| ==> items[i].orderItemId != items[j].orderItemId
      decreases rest
    {
      var k :| k in rest;
      if t[k].orderId == orderId {
        items := items + [t[k]];
      }
      rest := rest - {k};
    }
  }

  lemma {:induction false} DistinctMultiset(s: seq<OrderItem>)
    requires forall i, j :: 0 <= i < j < |s| ==> s[i].orderItemId != s[j].orderItemId
    ensures forall x :: multiset(s)[x] == if x in s then 1 else 0
  {
    if s != [] {
      DistinctMultiset(s[1..]);
      assert s == [s[0]] + s[1..];
      assert s[0] !in s[1..];
    }
  }

  /** Whatever order the item rows come back in, the request weighs the same. */
  lemma OrderRowsWeight(t: map<nat, OrderItem>, orderId: nat, a: seq<OrderItem>, b: seq<OrderItem>)
    requires OrderRows(t, orderId, a) && OrderRows(t, orderId, b)
    ensures Weight(a) == Weight(b)
  {
    DistinctMultiset(a);
    DistinctMultiset(b);
    assert multiset(a) == multiset(b);
    WeightPermutation(a, b);
  }

  /** The order after ShipXpress created its shipment: in delivery, with the
      returned status (or "Processing") and the returned id (or NULL). */
  function Dispatched(order: Order, shipmentId: Option<string>, status: Option<string>): (r: Order)
    ensures r.orderId == order.orderId && r.userId == order.userId && r.totalAmount == order.totalAmount
    ensures r.status == InDelivery && Truthy(r.shipmentStatus)
    ensures Truthy(status) ==> r.shipmentStatus == status
    ensures Truthy(r.shipmentId) <==> Truthy(shipmentId)
    ensures Truthy(shipmentId) ==> r.shipmentId == shipmentId
    ensures !Truthy(shipmentId) ==> r.shipmentId == None
  {
    order.(status := InDelivery,
           shipmentStatus := Some(if Truthy(status) then status.value else Processing),
           shipmentId := if Truthy(shipmentId) then shipmentId else None)
  }

  /** The `sendOrderToShipXpress` mutation. An unknown order, an unknown user and a
      refused shipment fail with "Error sending order to ShipXpress: " and the
      reason, writing nothing; otherwise the order is dispatched and the answer says
      whether a shipment id came back. `items` are the item rows read, `sent` the
      request posted. */
  method SendOrderToShipXpress(db: OrderDb, orderId: nat, users: int -> Option<UserInfo>,
                               post: ShipmentRequest -> ShipmentAnswer)
    returns (r: Result<bool>, items: seq<OrderItem>, sent: Option<ShipmentRequest>)
    requires db.Valid()
    modifies db`orders
    ensures db.Valid()
    ensures orderId !in old(db.orders) ==>
      r == Err(SendOrderError + OrderNotFound) && sent == None && db.orders == old(db.orders)
    ensures orderId in old(db.orders) ==>
      var order := old(db.orders)[orderId];
      var request := ShipmentRequestFor(order, items, users(order.userId));
      OrderRows(db.orderItems, orderId, items) &&
      (request.Err? ==> r == Err(SendOrderError + request.msg) && sent == None && db.orders == old(db.orders)) &&
      (request.Ok? ==> (
        sent == Some(request.value) &&
        match post(request.value)
        case Rejected(m) => r == Err(SendOrderError + FailureMessage(m)) && db.orders == old(db.orders)
        case Created(sid, st) => r == Ok(Truthy(sid)) && db.orders == old(db.orders)[orderId := Dispatched(order, sid, st)]))
  {
    items, sent := [], None;
    if orderId !in db.orders {
      return Err(SendOrderError + OrderNotFound), items, sent;
    }
    var order := db.orders[orderId];
    items := ItemsOfOrder(db, orderId);
    var request := ShipmentRequestFor(order, items, users(order.userId));
    if request.Err? {
      return Err(SendOrderError + request.msg), items, sent;
    }
    sent := Some(request.value);
    var answer := post(request.value);
    if answer.Rejected? {
      return Err(SendOrderError + FailureMessage(answer.message)), items, sent;
    }
    db.orders := db.orders[orderId := Dispatched(order, answer.shipmentId, answer.status)];
    r := Ok(Truthy(answer.shipmentId));
  }
}
