/** The ShipXpress shipment service: creating a shipment (with a shadow customer
    copied from the marketplace when needed and a first tracking row), updating a
    shipment (destination backfill, sparse UPDATE, and on a real status change a
    tracking row plus a webhook to the marketplace), and deleting one. Calls to the
    marketplace's user, order and payment services are oracle parameters whose
    answers are already reduced to what the fetch helpers return (`null` on any
    error). */
module ShipmentService {
  import opened Wrappers
  import opened Text
  import opened Sql
  import opened ShipXpressDb

  /** `user(id)` on the marketplace user service. */
  datatype MarketUser = MarketUser(userId: nat, name: Value, email: Value, phone: Value, address: Value)

  /** The first entry of `ordersByUser`; `totalText` is the amount as JavaScript renders the number. */
  datatype MarketOrder = MarketOrder(orderId: nat, totalText: string)

  /** The first entry of `paymentsByOrder`. */
  datatype MarketPayment = MarketPayment(paymentId: nat)

  /** An entry of `ordersByUser` as `findOrderIdByShipmentId` asks for it. */
  datatype OrderRef = OrderRef(orderId: nat, shipmentId: Option<string>)

  /** The body posted to the marketplace's shipment-status webhook. */
  datatype Webhook = Webhook(shipmentId: string, orderId: string, status: string)

  /** The arguments of `createShipment`. */
  datatype NewShipment = NewShipment(
    customerId: nat, originAddress: string, destinationAddress: string,
    sType: string, weight: real, status: string, vehicleId: Value)

  const DuplicateCustomer: string := "duplicate key value violates unique constraint \"customers_pkey\""
  const NoStatusText: string := "Cannot read properties of null (reading 'toLowerCase')"

  /** `normalizeShipmentRow` (the `created_at` conversion to an ISO string is the identity here). */
  function Normalized(row: Row): Row {
    row[STypeField := Get(row, SType)]
  }

  /** A normalized row carries every stored column unchanged plus `S_type`, which
      equals the stored `s_type` (Postgres folds the unquoted `S_type` column). */
  lemma NormalizedEffect(row: Row)
    ensures Normalized(row).Keys == row.Keys + {STypeField}
    ensures Normalized(row)[STypeField] == Get(row, SType)
    ensures forall c :: c in row && c != STypeField ==> Normalized(row)[c] == row[c]
  {
  }

  // ---- ensureCustomerFromMarketplace ---------------------------------------

  /** The shadow customer row copied from a marketplace user. */
  function ShadowCustomer(u: MarketUser, now: int): Row {
    map[CustomerId := Int(u.userId), Name := u.name, Email := u.email,
        Phone := Or(u.phone, Str("-")), Address := Or(u.address, Str("-")),
        CType := Str("Marketplace"), CreatedAt := Int(now)]
  }

  /** Missing contact fields of a shadow customer become "-", never empty. */
  lemma ShadowCustomerDefaults(u: MarketUser, now: int)
    ensures Truthy(ShadowCustomer(u, now)[Phone]) && Truthy(ShadowCustomer(u, now)[Address])
    ensures !Truthy(u.address) <==> ShadowCustomer(u, now)[Address] == Str("-") && u.address != Str("-")
    ensures ShadowCustomer(u, now)[CType] == Str("Marketplace")
  {
  }

  /** The customer `ensureCustomerFromMarketplace` answers with, if it succeeds. */
  function ResolvedCustomer(customers: Table, customerId: nat, fetched: Option<MarketUser>, now: int): Option<Row> {
    if customerId in customers then Some(customers[customerId])
    else if fetched.None? || fetched.value.userId in customers then None
    else Some(ShadowCustomer(fetched.value, now))
  }

  /** An existing customer is returned as stored and the marketplace answer is not
      used; otherwise a missing user fails before anything is written, and a found
      one is inserted under its own id, after which the serial is moved to the
      largest id (`setval` to `MAX(customer_id)`). */
  method EnsureCustomerFromMarketplace(db: Database, customerId: nat, fetched: Option<MarketUser>, now: int)
    returns (r: Result<Row>)
    requires db.Valid()
    modifies db`customers, db`nextCustomerId
    ensures db.Valid()
    ensures customerId in old(db.customers) ==>
      r == Ok(old(db.customers)[customerId]) && db.customers == old(db.customers) && db.nextCustomerId == old(db.nextCustomerId)
    ensures customerId !in old(db.customers) && fetched.None? ==>
      r == Err("Marketplace user not found") && db.customers == old(db.customers) && db.nextCustomerId == old(db.nextCustomerId)
    ensures customerId !in old(db.customers) && fetched.Some? && fetched.value.userId in old(db.customers) ==>
      r == Err(DuplicateCustomer) && db.customers == old(db.customers) && db.nextCustomerId == old(db.nextCustomerId)
    ensures customerId !in old(db.customers) && fetched.Some? && fetched.value.userId !in old(db.customers) ==>
      r == Ok(ShadowCustomer(fetched.value, now)) &&
      db.customers == old(db.customers)[fetched.value.userId := ShadowCustomer(fetched.value, now)] &&
      db.nextCustomerId - 1 in db.customers
    ensures r.Ok? <==> ResolvedCustomer(old(db.customers), customerId, fetched, now).Some?
    ensures r.Ok? ==> r.value == ResolvedCustomer(old(db.customers), customerId, fetched, now).value
    ensures r.Err? ==> db.customers == old(db.customers)
  {
    if customerId in db.customers {
      return Ok(db.customers[customerId]);
    }
    if fetched.None? {
      return Err("Marketplace user not found");
    }
    var u := fetched.value;
    if u.userId in db.customers {
      return Err(DuplicateCustomer);
    }
    var row := ShadowCustomer(u, now);
    db.customers := db.customers[u.userId := row];
    assert u.userId in db.customers;
    var top := MaxKey(db.customers);
    db.nextCustomerId := top + 1;
    r := Ok(row);
  }

  // ---- createShipment ------------------------------------------------------

  /** The destination test of `createShipment`: falsy, "-", or empty after `trim`. */
  predicate NeedsDestination(dest: string) {
    dest == "" || dest == "-" || Trim(dest) == ""
  }

  /** The destination is replaced exactly when it is "-" or consists of white space only. */
  lemma NeedsDestinationExact(dest: string)
    ensures NeedsDestination(dest) <==> dest == "-" || IsBlank(dest)
  {
    TrimEmptyIffBlank(dest);
  }

  /** The destination stored by `createShipment`: the given one, or the resolved
      customer's address, or "-". */
  function FinalDestination(dest: string, customer: Row): Value {
    if NeedsDestination(dest) then Or(Get(customer, Address), Str("-")) else Str(dest)
  }

  /** A usable destination is kept; otherwise the customer's address is used when it
      is truthy, and "-" when it is not; so the stored destination is never falsy. */
  lemma FinalDestinationCases(dest: string, customer: Row)
    ensures !NeedsDestination(dest) ==> FinalDestination(dest, customer) == Str(dest)
    ensures NeedsDestination(dest) && Truthy(Get(customer, Address)) ==>
      FinalDestination(dest, customer) == Get(customer, Address)
    ensures NeedsDestination(dest) && !Truthy(Get(customer, Address)) ==>
      FinalDestination(dest, customer) == Str("-")
    ensures Truthy(FinalDestination(dest, customer))
  {
  }

  /** `Order <id> - Total <amount>` when there is a latest order, else null. */
  function ItemNameFor(order: Option<MarketOrder>): Value {
    if order.Some? then Str("Order " + Dec(order.value.orderId) + " - Total " + order.value.totalText) else Null
  }

  /** `PAY-<id>` when there is a latest payment, else null. */
  function BarcodeFor(payment: Option<MarketPayment>): Value {
    if payment.Some? then Str("PAY-" + Dec(payment.value.paymentId)) else Null
  }

  /** The latest payment is asked for only when there is a latest order. */
  function LatestPayment(order: Option<MarketOrder>, paymentOf: nat -> Option<MarketPayment>): Option<MarketPayment> {
    if order.Some? then paymentOf(order.value.orderId) else None
  }

  /** `customer?.col || null` for a customer that may be missing. */
  function Field(customer: Option<Row>, col: Column): Value {
    if customer.Some? then Or(Get(customer.value, col), Null) else Null
  }

  /** A tracking row as both mutations insert it. */
  function TrackingRow(shipmentId: nat, location: string, status: Value, customer: Option<Row>,
                       destination: Value, order: Option<MarketOrder>, payment: Option<MarketPayment>,
                       now: int): (r: Row)
    ensures ShipmentId in r && r[ShipmentId] == Int(shipmentId)
    ensures Location in r && r[Location] == Str(location)
    ensures Status in r && r[Status] == status
    ensures RecipientAddress in r && r[RecipientAddress] == Or(destination, Field(customer, Address))
    ensures ItemName in r && (r[ItemName].Str? <==> order.Some?)
    ensures Barcode in r && (r[Barcode].Str? <==> payment.Some?)
  {
    map[ShipmentId := Int(shipmentId), Location := Str(location), Status := status,
        RecipientName := Field(customer, Name), RecipientPhone := Field(customer, Phone),
        RecipientAddress := Or(destination, Field(customer, Address)),
        ItemName := ItemNameFor(order), Barcode := BarcodeFor(payment),
        CreatedAt := Int(now), UpdatedAt := Int(now)]
  }

  /** The columns `createShipment` inserts (the serial fills in `shipment_id`). */
  function ShipmentRow(args: NewShipment, destination: Value, now: int): Row {
    map[CustomerId := Int(args.customerId),
        OriginAddress := Str(args.originAddress),
        DestinationAddress := destination,
        SType := Str(args.sType), Weight := Num(args.weight), Status := Str(args.status),
        VehicleId := Or(args.vehicleId, Null), CreatedAt := Int(now)]
  }

  /** The first tracking row of a new shipment: at the origin, with the shipment's status. */
  function CreationTracking(id: nat, args: NewShipment, customer: Row, destination: Value,
                            order: Option<MarketOrder>, paymentOf: nat -> Option<MarketPayment>, now: int): Row {
    TrackingRow(id, args.originAddress, Str(args.status), Some(customer),
                destination, order, LatestPayment(order, paymentOf), now)
  }

  /** The two inserts of `createShipment` once its customer is known: the shipment
      row with the final destination, then its first tracking row. */
  method AppendShipment(db: Database, args: NewShipment, customer: Row, order: Option<MarketOrder>,
                        paymentOf: nat -> Option<MarketPayment>, now: int)
    returns (r: Row)
    requires db.Valid()
    modifies db`shipments, db`nextShipmentId, db`trackingUpdates, db`nextTrackingId
    ensures db.Valid()
    ensures var destination := FinalDestination(args.destinationAddress, customer);
      var row := ShipmentRow(args, destination, now)[ShipmentId := Int(old(db.nextShipmentId))];
      r == Normalized(row) &&
      db.shipments == old(db.shipments)[old(db.nextShipmentId) := row] &&
      db.trackingUpdates == old(db.trackingUpdates)[old(db.nextTrackingId) :=
        CreationTracking(old(db.nextShipmentId), args, customer, destination, order, paymentOf, now)
          [TrackingId := Int(old(db.nextTrackingId))]]
    ensures db.nextShipmentId == old(db.nextShipmentId) + 1 && db.nextTrackingId == old(db.nextTrackingId) + 1
  {
    var destination := FinalDestination(args.destinationAddress, customer);
    var sid := db.InsertShipment(ShipmentRow(args, destination, now));
    var _ := db.InsertTracking(CreationTracking(sid, args, customer, destination, order, paymentOf, now));
    r := Normalized(db.shipments[sid]);
  }

  /** `createShipment`: the customer is ensured first (a failure stops everything),
      then one shipment row and one tracking row are appended; the tracking row sits
      at the origin with the shipment's status and carries the order and payment
      references when the marketplace has them. */
  method CreateShipment(db: Database, args: NewShipment, fetched: Option<MarketUser>,
                        latestOrderOf: Value -> Option<MarketOrder>, paymentOf: nat -> Option<MarketPayment>,
                        now: int)
    returns (r: Result<Row>)
    requires db.Valid()
    modifies db`customers, db`nextCustomerId, db`shipments, db`nextShipmentId, db`trackingUpdates, db`nextTrackingId
    ensures db.Valid()
    ensures r.Err? <==> ResolvedCustomer(old(db.customers), args.customerId, fetched, now).None?
    ensures r.Err? ==> (db.customers == old(db.customers) && db.nextCustomerId == old(db.nextCustomerId) &&
      db.shipments == old(db.shipments) && db.trackingUpdates == old(db.trackingUpdates) &&
      db.nextShipmentId == old(db.nextShipmentId) && db.nextTrackingId == old(db.nextTrackingId))
    ensures r.Ok? ==> db.nextShipmentId == old(db.nextShipmentId) + 1 && db.nextTrackingId == old(db.nextTrackingId) + 1
    ensures r.Ok? && args.customerId in old(db.customers) ==>
      db.customers == old(db.customers) && db.nextCustomerId == old(db.nextCustomerId)
    ensures r.Ok? && args.customerId !in old(db.customers) ==>
      fetched.Some? && db.customers == old(db.customers)[fetched.value.userId := ShadowCustomer(fetched.value, now)] &&
      db.nextCustomerId - 1 in db.customers
    ensures r.Ok? ==>
      var customer := ResolvedCustomer(old(db.customers), args.customerId, fetched, now).value;
      var destination := FinalDestination(args.destinationAddress, customer);
      var row := ShipmentRow(args, destination, now)[ShipmentId := Int(old(db.nextShipmentId))];
      r == Ok(Normalized(row)) &&
      db.shipments == old(db.shipments)[old(db.nextShipmentId) := row] &&
      db.trackingUpdates == old(db.trackingUpdates)[old(db.nextTrackingId) :=
        CreationTracking(old(db.nextShipmentId), args, customer, destination,
                         latestOrderOf(Int(args.customerId)), paymentOf, now)[TrackingId := Int(old(db.nextTrackingId))]]
  {
    var ensured := EnsureCustomerFromMarketplace(db, args.customerId, fetched, now);
    if ensured.Err? {
      return Err(ensured.msg);
    }
    var row := AppendShipment(db, args, ensured.value, latestOrderOf(Int(args.customerId)), paymentOf, now);
    r := Ok(row);
  }

  // ---- updateShipment ------------------------------------------------------

  /** The text of a status value (`toLowerCase` is only ever applied to strings). */
  function TextOf(v: Value): string {
    if v.Str? then v.s else ""
  }

  /** `updates.status && updates.status.toLowerCase() !== oldStatus.toLowerCase()` */
  predicate StatusChanged(status: Arg, oldStatus: Value) {
    ArgTruthy(status) && status.v.Str? && ToLower(status.v.s) != ToLower(TextOf(oldStatus))
  }

  /** A new status that differs from the old one only in letter case is no change,
      and neither is an absent or empty one. */
  lemma StatusChangeIgnoresCase(s: string, prev: string)
    ensures StatusChanged(Defined(Str(s)), Str(prev)) <==> s != "" && ToLower(s) != ToLower(prev)
    ensures !StatusChanged(Undefined, Str(prev)) && !StatusChanged(Defined(Str("")), Str(prev))
    ensures StatusChanged(Defined(Str(s)), Str(prev)) ==> s != prev
  {
  }

  /** The tracking location for a new status, compared in lower case. */
  function LocationFor(status: string): (loc: string)
    ensures loc in {"In transit", "Delivered", "Processing", "Pending", "Order received"}
  {
    var lower := ToLower(status);
    if lower == "in transit" then "In transit"
    else if lower == "delivered" then "Delivered"
    else if lower == "processing" then "Processing"
    else if lower == "pending" then "Pending"
    else "Order received"
  }

  /** The location depends on the status only up to letter case. */
  lemma LocationIgnoresCase(status: string)
    ensures LocationFor(status) == LocationFor(ToLower(status))
  {
    ToLowerIdempotent(status);
  }

  /** Whether the destination is to be taken from the customer: "-" or "" given,
      or nothing given while the stored one is "-" or "". */
  predicate WantsBackfill(dest: Arg, oldDestination: Value) {
    dest == Defined(Str("-")) || dest == Defined(Str("")) ||
    (!ArgTruthy(dest) && (oldDestination == Str("-") || oldDestination == Str("")))
  }

  /** `updates` after the destination backfill: the customer's address is written
      into `destination_address` when it is wanted and the address is set and not "-". */
  function Backfilled(updates: seq<Binding>, stored: Row, customers: Table): (r: seq<Binding>)
    requires DistinctKeys(updates)
    ensures DistinctKeys(r)
    ensures forall k :: k != DestinationAddress ==> Lookup(r, k) == Lookup(updates, k)
  {
    if WantsBackfill(Lookup(updates, DestinationAddress), Get(stored, DestinationAddress)) then
      var customer := RowAt(customers, Get(stored, CustomerId));
      if customer.Some? && Truthy(Get(customer.value, Address)) && Get(customer.value, Address) != Str("-") then
        Assign(updates, DestinationAddress, Get(customer.value, Address))
      else updates
    else updates
  }

  /** The backfill writes the customer's address exactly when it is wanted and usable;
      otherwise the destination argument is left as given. */
  lemma BackfillEffect(updates: seq<Binding>, stored: Row, customers: Table)
    requires DistinctKeys(updates)
    ensures var customer := RowAt(customers, Get(stored, CustomerId));
      var usable := customer.Some? && Truthy(Get(customer.value, Address)) && Get(customer.value, Address) != Str("-");
      Lookup(Backfilled(updates, stored, customers), DestinationAddress) ==
        if WantsBackfill(Lookup(updates, DestinationAddress), Get(stored, DestinationAddress)) && usable
        then Defined(Get(customer.value, Address))
        else Lookup(updates, DestinationAddress)
  {
  }

  /** `findOrderIdByShipmentId`'s search: the first order whose `shipment_id` is set
      and equal to the shipment id. */
  predicate Matches(o: OrderRef, shipmentId: string) {
    o.shipmentId.Some? && o.shipmentId.value != "" && o.shipmentId.value == shipmentId
  }

  function FirstMatch(orders: seq<OrderRef>, shipmentId: string): (r: Option<nat>)
    ensures r.None? <==> forall i :: 0 <= i < |orders| ==> !Matches(orders[i], shipmentId)
  {
    if orders == [] then None
    else if Matches(orders[0], shipmentId) then Some(orders[0].orderId)
    else FirstMatch(orders[1..], shipmentId)
  }

  /** The answer is the order id of the first matching order. */
  lemma {:induction false} FirstMatchIsFirst(orders: seq<OrderRef>, shipmentId: string)
    requires FirstMatch(orders, shipmentId).Some?
    ensures exists i ::
      (0 <= i < |orders| && Matches(orders[i], shipmentId) &&
       orders[i].orderId == FirstMatch(orders, shipmentId).value &&
       forall j :: 0 <= j < i ==> !Matches(orders[j], shipmentId))
  {
    if !Matches(orders[0], shipmentId) {
      FirstMatchIsFirst(orders[1..], shipmentId);
      var i :| 0 <= i < |orders[1..]| && Matches(orders[1..][i], shipmentId) &&
        orders[1..][i].orderId == FirstMatch(orders, shipmentId).value &&
        forall j :: 0 <= j < i ==> !Matches(orders[1..][j], shipmentId);
      assert orders[i + 1] == orders[1..][i];
      forall j | 0 <= j < i + 1 ensures !Matches(orders[j], shipmentId) {
        if j > 0 { assert orders[j] == orders[1..][j - 1]; }
      }
    } else {
      assert Matches(orders[0], shipmentId);
    }
  }

  /** `findOrderIdByShipmentId` over the answer of `ordersByUser` (`None` when the
      call failed or answered errors). */
  method FindOrderIdByShipmentId(shipmentId: string, answer: Option<seq<OrderRef>>) returns (r: Option<nat>)
    ensures answer.None? ==> r.None?
    ensures answer.Some? ==> r == FirstMatch(answer.value, shipmentId)
  {
    if answer.None? {
      return None;
    }
    var orders := answer.value;
    var i := 0;
    while i < |orders|
      invariant 0 <= i <= |orders|
      invariant FirstMatch(orders, shipmentId) == FirstMatch(orders[i..], shipmentId)
    {
      assert orders[i..][1..] == orders[i + 1..];
      if Matches(orders[i], shipmentId) {
        return Some(orders[i].orderId);
      }
      i := i + 1;
    }
    r := None;
  }

  /** `sendWebhookToYapPerce`: nothing is sent without an order id. */
  function WebhookFor(shipmentId: nat, orderId: Option<nat>, status: string): (w: Option<Webhook>)
    ensures w.None? <==> orderId.None?
    ensures w.Some? ==> w.value.orderId == Dec(orderId.value) && w.value.shipmentId == Dec(shipmentId) && w.value.status == status
  {
    if orderId.None? then None else Some(Webhook(Dec(shipmentId), Dec(orderId.value), status))
  }

  /** The tracking row recorded for a status change of `updated` to `status`. */
  function StatusTrackingRow(id: nat, updated: Row, status: string, customers: Table,
                             latestOrderOf: Value -> Option<MarketOrder>, paymentOf: nat -> Option<MarketPayment>,
                             now: int): Row {
    var order := latestOrderOf(Get(updated, CustomerId));
    TrackingRow(id, LocationFor(status), Str(status), RowAt(customers, Get(updated, CustomerId)),
                Get(updated, DestinationAddress), order, LatestPayment(order, paymentOf), now)
  }

  /** The side effects of a status change on shipment `id`: one tracking row
      appended and the webhook for the customer's order carrying the shipment. */
  method RecordStatusChange(db: Database, id: nat, status: string,
                            latestOrderOf: Value -> Option<MarketOrder>, paymentOf: nat -> Option<MarketPayment>,
                            ordersOf: Value -> Option<seq<OrderRef>>, now: int)
    returns (sent: Option<Webhook>)
    requires db.Valid() && id in db.shipments
    modifies db`trackingUpdates, db`nextTrackingId
    ensures db.Valid()
    ensures db.nextTrackingId == old(db.nextTrackingId) + 1
    ensures db.trackingUpdates == old(db.trackingUpdates)[old(db.nextTrackingId) :=
      StatusTrackingRow(id, db.shipments[id], status, db.customers, latestOrderOf, paymentOf, now)
        [TrackingId := Int(old(db.nextTrackingId))]]
    ensures sent == WebhookFor(id, if ordersOf(Get(db.shipments[id], CustomerId)).Some?
                                   then FirstMatch(ordersOf(Get(db.shipments[id], CustomerId)).value, Dec(id)) else None,
                               status)
  {
    var updated := db.shipments[id];
    var _ := db.InsertTracking(StatusTrackingRow(id, updated, status, db.customers, latestOrderOf, paymentOf, now));
    var orderId := FindOrderIdByShipmentId(Dec(id), ordersOf(Get(updated, CustomerId)));
    sent := WebhookFor(id, orderId, status);
  }

  /** `updateShipment`. An unknown id fails and writes nothing. With nothing to set
      the stored row is returned. Otherwise the supplied columns (after the
      destination backfill) are written; a status that changes other than in letter
      case also appends a tracking row and posts a webhook when an order of the
      customer carries this shipment. */
  method UpdateShipment(db: Database, id: nat, updates: seq<Binding>,
                        latestOrderOf: Value -> Option<MarketOrder>, paymentOf: nat -> Option<MarketPayment>,
                        ordersOf: Value -> Option<seq<OrderRef>>, now: int)
    returns (r: Result<Row>, sent: Option<Webhook>)
    requires db.Valid() && DistinctKeys(updates)
    modifies db`shipments, db`trackingUpdates, db`nextTrackingId
    ensures db.Valid()
    ensures id !in old(db.shipments) ==>
      r == Err("Shipment not found") && sent == None &&
      db.shipments == old(db.shipments) && db.trackingUpdates == old(db.trackingUpdates) &&
      db.nextTrackingId == old(db.nextTrackingId)
    ensures id in old(db.shipments) && ArgTruthy(Lookup(updates, Status)) && !Get(old(db.shipments)[id], Status).Str? ==>
      r == Err(NoStatusText) && sent == None &&
      db.shipments == old(db.shipments) && db.trackingUpdates == old(db.trackingUpdates) &&
      db.nextTrackingId == old(db.nextTrackingId)
    ensures id in old(db.shipments) && !(ArgTruthy(Lookup(updates, Status)) && !Get(old(db.shipments)[id], Status).Str?) ==>
      var prior := old(db.shipments)[id];
      var written := Supplied(Backfilled(updates, prior, old(db.customers)));
      var status := Lookup(updates, Status);
      var changed := written != [] && StatusChanged(status, Get(prior, Status));
      db.shipments == (if written == [] then old(db.shipments) else UpdateRow(old(db.shipments), id, written)) &&
      r == Ok(Normalized(db.shipments[id])) &&
      (changed ==>
        db.nextTrackingId == old(db.nextTrackingId) + 1 &&
        db.trackingUpdates == old(db.trackingUpdates)[old(db.nextTrackingId) :=
          StatusTrackingRow(id, db.shipments[id], status.v.s, db.customers, latestOrderOf, paymentOf, now)
            [TrackingId := Int(old(db.nextTrackingId))]] &&
        sent == WebhookFor(id, if ordersOf(Get(db.shipments[id], CustomerId)).Some?
                               then FirstMatch(ordersOf(Get(db.shipments[id], CustomerId)).value, Dec(id)) else None,
                           status.v.s)) &&
      (!changed ==> db.trackingUpdates == old(db.trackingUpdates) && db.nextTrackingId == old(db.nextTrackingId) &&
                    sent == None)
  {
    sent := None;
    if id !in db.shipments {
      return Err("Shipment not found"), None;
    }
    var prior := db.shipments[id];
    var status := Lookup(updates, Status);
    if ArgTruthy(status) && !Get(prior, Status).Str? {
      return Err(NoStatusText), None;
    }
    var changed := StatusChanged(status, Get(prior, Status));
    var u := Backfilled(updates, prior, db.customers);
    var fields, values, paramCount := BuildSetList(u);
    if |fields| == 0 {
      return Ok(Normalized(prior)), None;
    }
    db.shipments := UpdateRow(db.shipments, id, Supplied(u));
    var updated := db.shipments[id];
    assert db.shipments == UpdateRow(old(db.shipments), id, Supplied(Backfilled(updates, prior, old(db.customers))));
    if changed {
      sent := RecordStatusChange(db, id, status.v.s, latestOrderOf, paymentOf, ordersOf, now);
    }
    r := Ok(Normalized(updated));
  }

  /** `deleteShipment`: true exactly when the row existed. */
  method DeleteShipment(db: Database, id: nat) returns (removed: bool)
    requires db.Valid()
    modifies db`shipments
    ensures db.Valid()
    ensures removed <==> id in old(db.shipments)
    ensures db.shipments == old(db.shipments) - {id}
  {
    removed := id in db.shipments;
    db.shipments := Deleted(db.shipments, id).0;
  }
}
