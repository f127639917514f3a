/** The order service's HTTP endpoint `POST /webhook/shipment-status`, through which
    a shipment provider reports a shipment's status for an order. */
module OrderWebhook {
  import opened Wrappers
  import opened Text
  import opened OrderService

  const MissingFields: string := "Missing required fields: shipmentId, orderId, status"
  const StatusUpdated: string := "Shipment status updated"
  const InternalError: string := "Internal server error"

  /** The JSON body; a field that was not sent is `None`. */
  datatype Payload = Payload(shipmentId: Option<string>, orderId: Option<string>, status: Option<string>)

  /** The HTTP answer: its status code and the body's `error` or `message` text. */
  datatype Reply = Reply(code: nat, text: string)

  /** `shipmentId && orderId && status`. */
  predicate Complete(p: Payload) {
    Truthy(p.shipmentId) && Truthy(p.orderId) && Truthy(p.status)
  }

  /** The order as the UPDATE leaves it: shipment status, mapped order status and
      shipment id set, nothing else. */
  function Reported(order: Order, shipmentId: string, status: string): Order {
    WithShipmentStatus(order, status).(shipmentId := Some(shipmentId))
  }

  /** `UPDATE orders SET shipment_status = ?, status = ?, shipment_id = ? WHERE
      order_id = ?`: the row whose id the decimal text names, if any. */
  function Applied(orders: map<nat, Order>, p: Payload): map<nat, Order>
    requires Complete(p)
  {
    var k := ParseDec(p.orderId.value);
    if k.Some? && k.value in orders
    then orders[k.value := Reported(orders[k.value], p.shipmentId.value, p.status.value)]
    else orders
  }

  /** The handler. An incomplete body is refused with 400 and a database failure
      answered with 500, both writing nothing; otherwise the one UPDATE runs and the
      answer is success. `failing` says whether the database query fails. */
  method HandleShipmentStatus(db: OrderDb, p: Payload, failing: bool) returns (reply: Reply)
    requires db.Valid()
    modifies db`orders
    ensures db.Valid()
    ensures !Complete(p) ==> reply == Reply(400, MissingFields) && db.orders == old(db.orders)
    ensures Complete(p) && failing ==> reply == Reply(500, InternalError) && db.orders == old(db.orders)
    ensures Complete(p) && !failing ==> reply == Reply(200, StatusUpdated) && db.orders == Applied(old(db.orders), p)
  {
    if !Truthy(p.shipmentId) || !Truthy(p.orderId) || !Truthy(p.status) {
      return Reply(400, MissingFields);
    }
    var status := p.status.value;
    var orderStatus := InDelivery;
    if status == Delivered || status == Finished {
      orderStatus := Finished;
    }
    if failing {
      return Reply(500, InternalError);
    }
    var k := ParseDec(p.orderId.value);
    if k.Some? && k.value in db.orders {
      var order := db.orders[k.value];
      db.orders := db.orders[k.value := order.(shipmentStatus := Some(status), status := orderStatus,
                                               shipmentId := Some(p.shipmentId.value))];
    }
    reply := Reply(200, StatusUpdated);
  }

  /** A complete payload for order `k` sets exactly that row's shipment status,
      shipment id and order status ("Selesai" exactly for "Delivered" and
      "Selesai"); an id that names no row changes nothing. */
  lemma AppliedEffect(orders: map<nat, Order>, p: Payload, k: nat)
    requires Complete(p)
    ensures ParseDec(p.orderId.value) == Some(k) && k in orders ==>
      var o := Applied(orders, p)[k];
      Applied(orders, p).Keys == orders.Keys &&
      o.shipmentStatus == p.status && o.shipmentId == p.shipmentId &&
      (o.status == Finished <==> p.status.value == Delivered || p.status.value == Finished) &&
      (o.status != Finished ==> o.status == InDelivery) &&
      o.orderId == orders[k].orderId && o.userId == orders[k].userId && o.totalAmount == orders[k].totalAmount
    ensures ParseDec(p.orderId.value) != Some(k) && k in orders ==> Applied(orders, p)[k] == orders[k]
    ensures ParseDec(p.orderId.value) == Some(k) && k !in orders ==> Applied(orders, p) == orders
  {
  }

  /** The order named by the decimal rendering of its id is the one updated. */
  lemma AppliedToNamedOrder(orders: map<nat, Order>, shipmentId: string, k: nat, status: string)
    requires shipmentId != "" && status != "" && k in orders
    ensures Complete(Payload(Some(shipmentId), Some(Dec(k)), Some(status)))
    ensures Applied(orders, Payload(Some(shipmentId), Some(Dec(k)), Some(status))) ==
      orders[k := Reported(orders[k], shipmentId, status)]
  {
    DecShape(k);
    DecRoundTrip(k);
  }

  /** Delivering the same payload twice leaves the orders as delivering it once. */
  lemma AppliedIdempotent(orders: map<nat, Order>, p: Payload)
    requires Complete(p)
    ensures Applied(Applied(orders, p), p) == Applied(orders, p)
  {
  }

  /** Of two payloads for the same order, the later one's values stand. */
  lemma LaterPayloadWins(orders: map<nat, Order>, p: Payload, q: Payload)
    requires Complete(p) && Complete(q) && p.orderId == q.orderId
    ensures Applied(Applied(orders, p), q) == Applied(orders, q)
  {
  }

  /** Payloads for different orders do not interfere: their order does not matter. */
  lemma DifferentOrdersCommute(orders: map<nat, Order>, p: Payload, q: Payload)
    requires Complete(p) && Complete(q) && p.orderId != q.orderId
    ensures Applied(Applied(orders, p), q) == Applied(Applied(orders, q), p)
  {
    var kp, kq := ParseDec(p.orderId.value), ParseDec(q.orderId.value);
    if kp.Some? && kq.Some? {
      ParseDecCanonical(p.orderId.value, kp.value);
      ParseDecCanonical(q.orderId.value, kq.value);
    }
  }
}
