/** The ShipXpress stand-in used by the order service: an in-memory `Map` of
    shipments keyed by shipment id, in insertion order, with create, lookup,
    filter-by-order and status update, plus the three timed status steps as
    explicit methods. Webhooks to the order service are returned to the caller;
    their delivery failures are swallowed by the source, so nothing depends on them. */
module ShipXpressMock {
  import opened Wrappers

  datatype ShipmentItem = ShipmentItem(productId: int, quantity: int, price: real)

  datatype MockShipment = MockShipment(
    shipmentId: string,
    orderId: string,
    userId: int,
    status: string,
    trackingNumber: string,
    items: seq<ShipmentItem>,
    createdAt: string,
    updatedAt: string)

  /** The body posted to the order service's webhook. */
  datatype Webhook = Webhook(shipmentId: string, orderId: string, status: string)

  datatype CreateResponse = CreateResponse(success: bool, shipmentId: Option<string>, message: string)
  datatype UpdateResponse = UpdateResponse(success: bool, message: string)

  /** The three timer callbacks, 5, 10 and 15 seconds after creation. */
  datatype Step = Shipped | InTransit | Delivered

  function StepStatus(step: Step): string {
    match step
    case Shipped => "Shipped"
    case InTransit => "In Transit"
    case Delivered => "Delivered"
  }

  /** The record a shipment gets when its status is overwritten at time `now`. */
  function Restamped(s: MockShipment, status: string, now: string): (r: MockShipment)
    ensures r.status == status && r.updatedAt == now
    ensures r.(status := s.status, updatedAt := s.updatedAt) == s
  {
    s.(status := status, updatedAt := now)
  }

  /** The shipments of one order, in map order (`filter(s => s.orderId === orderId)`). */
  function FilterByOrder(ss: seq<MockShipment>, orderId: string): (r: seq<MockShipment>)
    ensures |r| <= |ss|
  {
    if ss == [] then []
    else FilterByOrder(ss[..|ss| - 1], orderId) + (if ss[|ss| - 1].orderId == orderId then [ss[|ss| - 1]] else [])
  }

  /** The filter keeps exactly the shipments of that order. */
  lemma {:induction false} FilterByOrderExact(ss: seq<MockShipment>, orderId: string)
    ensures forall x :: x in FilterByOrder(ss, orderId) <==> x in ss && x.orderId == orderId
  {
    if ss != [] {
      var n := |ss| - 1;
      FilterByOrderExact(ss[..n], orderId);
      assert ss == ss[..n] + [ss[n]];
    }
  }

  /** The values stored under `ks`, in that order. */
  function ValuesAt(m: map<string, MockShipment>, ks: seq<string>): (r: seq<MockShipment>)
    requires forall i :: 0 <= i < |ks| ==> ks[i] in m
    ensures |r| == |ks|
    ensures forall i :: 0 <= i < |ks| ==> r[i] == m[ks[i]]
  {
    if ks == [] then [] else ValuesAt(m, ks[..|ks| - 1]) + [m[ks[|ks| - 1]]]
  }

  class Registry {
    var shipments: map<string, MockShipment>
    /** The ids in insertion order, which is the order `shipments.values()` yields. */
    var order: seq<string>

    ghost predicate Valid() reads this {
      (forall i :: 0 <= i < |order| ==> order[i] in shipments) &&
      (forall i, j :: 0 <= i < j < |order| ==> order[i] != order[j]) &&
      (forall k :: k in shipments ==> k in order) &&
      (forall k :: k in shipments ==> shipments[k].shipmentId == k)
    }

    constructor ()
      ensures Valid() && shipments == map[] && order == []
    {
      shipments := map[];
      order := [];
    }

    /** `shipment(shipmentId)`: the stored entry or 'Shipment not found'. */
    function Shipment(shipmentId: string): (r: Result<MockShipment>)
      reads this
      ensures r.Ok? <==> shipmentId in shipments
      ensures r.Ok? ==> r.value == shipments[shipmentId]
      ensures r.Err? ==> r.msg == "Shipment not found"
    {
      if shipmentId in shipments then Ok(shipments[shipmentId]) else Err("Shipment not found")
    }

    /** `shipments`: every stored value, in insertion order. */
    function Shipments(): (r: seq<MockShipment>)
      requires Valid()
      reads this
      ensures |r| == |order|
      ensures forall i :: 0 <= i < |r| ==> r[i] == shipments[order[i]]
      ensures forall k :: k in shipments ==> shipments[k] in r
    {
      var r := ValuesAt(shipments, order);
      assert forall k :: k in shipments ==> exists i :: 0 <= i < |order| && order[i] == k && r[i] == shipments[k];
      r
    }

    /** `shipmentsByOrder(orderId)` */
    function ShipmentsByOrder(orderId: string): (r: seq<MockShipment>)
      requires Valid()
      reads this
    {
      FilterByOrder(Shipments(), orderId)
    }

    /** `createShipment`: one entry under the given id, status 'Processing', the
        items copied field by field, created and updated at `now`. The id comes from
        the caller; `Map.set` on an id already present overwrites in place. */
    method CreateShipment(shipmentId: string, trackingNumber: string, orderId: string, userId: int,
                          items: seq<ShipmentItem>, now: string)
      returns (resp: CreateResponse)
      requires Valid()
      modifies this
      ensures Valid()
      ensures shipments == old(shipments)[shipmentId :=
        MockShipment(shipmentId, orderId, userId, "Processing", trackingNumber, items, now, now)]
      ensures order == if shipmentId in old(shipments) then old(order) else old(order) + [shipmentId]
      ensures resp == CreateResponse(true, Some(shipmentId), "Shipment created successfully")
    {
      var s := MockShipment(shipmentId, orderId, userId, "Processing", trackingNumber, items, now, now);
      if shipmentId !in shipments {
        order := order + [shipmentId];
      }
      shipments := shipments[shipmentId := s];
      resp := CreateResponse(true, Some(shipmentId), "Shipment created successfully");
    }

    /** `updateShipmentStatus`: an unknown id answers failure and changes nothing;
        a known one gets the new status and time, and a webhook carries the stored
        order id. */
    method UpdateShipmentStatus(shipmentId: string, status: string, now: string)
      returns (resp: UpdateResponse, sent: Option<Webhook>)
      requires Valid()
      modifies this`shipments
      ensures Valid() && order == old(order)
      ensures shipmentId !in old(shipments) ==>
        resp == UpdateResponse(false, "Shipment not found") && sent == None && shipments == old(shipments)
      ensures shipmentId in old(shipments) ==>
        resp == UpdateResponse(true, "Shipment status updated successfully") &&
        shipments == old(shipments)[shipmentId := Restamped(old(shipments)[shipmentId], status, now)] &&
        sent == Some(Webhook(shipmentId, old(shipments)[shipmentId].orderId, status))
    {
      if shipmentId !in shipments {
        return UpdateResponse(false, "Shipment not found"), None;
      }
      var s := shipments[shipmentId];
      shipments := shipments[shipmentId := Restamped(s, status, now)];
      sent := Some(Webhook(shipmentId, s.orderId, status));
      resp := UpdateResponse(true, "Shipment status updated successfully");
    }

    /** One timer callback: if the id is still present, its status is overwritten
        with the step's status whatever it was before, and a webhook follows. */
    method RunStep(shipmentId: string, step: Step, now: string) returns (sent: Option<Webhook>)
      requires Valid()
      modifies this`shipments
      ensures Valid() && order == old(order)
      ensures shipmentId !in old(shipments) ==> sent == None && shipments == old(shipments)
      ensures shipmentId in old(shipments) ==>
        shipments == old(shipments)[shipmentId := Restamped(old(shipments)[shipmentId], StepStatus(step), now)] &&
        sent == Some(Webhook(shipmentId, old(shipments)[shipmentId].orderId, StepStatus(step)))
    {
      sent := None;
      if shipmentId in shipments {
        var s := shipments[shipmentId];
        shipments := shipments[shipmentId := Restamped(s, StepStatus(step), now)];
        sent := Some(Webhook(shipmentId, s.orderId, StepStatus(step)));
      }
    }
  }

  /** A created shipment is found by its id and listed under its order. */
  method CreateThenFind(r: Registry, shipmentId: string, trackingNumber: string, orderId: string,
                        userId: int, items: seq<ShipmentItem>, now: string)
    returns (found: Result<MockShipment>, listed: seq<MockShipment>)
    requires r.Valid()
    modifies r
    ensures found.Ok? && found.value.status == "Processing" && found.value.orderId == orderId
    ensures found.value.createdAt == found.value.updatedAt
    ensures found.value in listed
    ensures forall x :: x in listed ==> x.orderId == orderId
  {
    var _ := r.CreateShipment(shipmentId, trackingNumber, orderId, userId, items, now);
    found := r.Shipment(shipmentId);
    listed := r.ShipmentsByOrder(orderId);
    FilterByOrderExact(r.Shipments(), orderId);
  }
}
