/** How the two systems meet: the order service reads the tracking list ShipXpress
    produces, and ShipXpress's status webhook lands in the order service's handler. */
module Choreography {
  import opened Wrappers
  import opened Text
  import Sql
  import Tracking = TrackingService
  import Shipments = ShipmentService
  import Orders = OrderService
  import Hook = OrderWebhook

  /** The `status` field of a tracking row as a string. */
  function StatusText(row: Sql.Row): string {
    if Sql.Get(row, Sql.Status).Str? then Sql.Get(row, Sql.Status).s else ""
  }

  /** The statuses of the listed rows, in list order. */
  function Statuses(rows: seq<Sql.Row>): (r: seq<string>)
    ensures |r| == |rows|
    ensures forall i :: 0 <= i < |rows| ==> r[i] == StatusText(rows[i])
  {
    seq(|rows|, i requires 0 <= i < |rows| => StatusText(rows[i]))
  }

  /** The status the order service takes as a shipment's latest is that of the
      shipment's OLDEST tracking row: the list comes newest first and the order
      service reads its last entry. */
  lemma LatestReadIsOldest(t: Sql.Table, ids: seq<nat>, rows: seq<Sql.Row>)
    requires Tracking.Sorted(t, ids) && ids != []
    requires forall i :: 0 <= i < |ids| ==> ids[i] in t
    requires |rows| == |ids| && forall i :: 0 <= i < |ids| ==> rows[i] == t[ids[i]]
    ensures Orders.LatestTrackingStatus(Statuses(rows)) == Some(StatusText(t[ids[|ids| - 1]]))
    ensures forall i :: 0 <= i < |ids| - 1 ==>
      Tracking.Stamp(t[ids[i]]).None? ||
      (Tracking.Stamp(t[ids[|ids| - 1]]).Some? && Tracking.Stamp(t[ids[i]]).value >= Tracking.Stamp(t[ids[|ids| - 1]]).value)
  {
    Tracking.LastIsOldest(t, ids);
  }

  /** A shipment whose tracking went from "Processing" (at time 10) to "Delivered"
      (at time 20): whatever list the tracking service returns, the order service
      reads "Processing". */
  lemma NewestStatusNotRead(ids: seq<nat>, rows: seq<Sql.Row>)
    requires var t := map[
      1 := map[Sql.ShipmentId := Sql.Int(7), Sql.Status := Sql.Str("Processing"), Sql.UpdatedAt := Sql.Int(10)],
      2 := map[Sql.ShipmentId := Sql.Int(7), Sql.Status := Sql.Str("Delivered"), Sql.UpdatedAt := Sql.Int(20)]];
      (forall k :: k in ids <==> Tracking.OfShipment(t, k, 7)) &&
      (forall i :: 0 <= i < |ids| ==> ids[i] in t) && Tracking.Sorted(t, ids) &&
      |rows| == |ids| && forall i :: 0 <= i < |ids| ==> rows[i] == t[ids[i]]
    ensures Orders.LatestTrackingStatus(Statuses(rows)) == Some("Processing")
  {
    var t := map[
      1 := map[Sql.ShipmentId := Sql.Int(7), Sql.Status := Sql.Str("Processing"), Sql.UpdatedAt := Sql.Int(10)],
      2 := map[Sql.ShipmentId := Sql.Int(7), Sql.Status := Sql.Str("Delivered"), Sql.UpdatedAt := Sql.Int(20)]];
    assert Tracking.OfShipment(t, 1, 7);
    assert 1 in ids;
    var i :| 0 <= i < |ids| && ids[i] == 1;
    var n := |ids| - 1;
    var first, last := ids[i], ids[n];
    assert i == n || Tracking.Listed(t, first, last);
    assert ids[n] in t;
    assert ids[n] == 1;
    LatestReadIsOldest(t, ids, rows);
  }

  /** Reading the FIRST entry instead gives the status of the shipment's newest row:
      no other row has a later `updated_at`. */
  lemma NewestReadIsNewest(t: Sql.Table, ids: seq<nat>, rows: seq<Sql.Row>)
    requires Tracking.Sorted(t, ids) && ids != []
    requires forall i :: 0 <= i < |ids| ==> ids[i] in t
    requires |rows| == |ids| && forall i :: 0 <= i < |ids| ==> rows[i] == t[ids[i]]
    ensures Orders.NewestTrackingStatus(Statuses(rows)) == Some(StatusText(t[ids[0]]))
    ensures forall i :: 0 < i < |ids| ==>
      Tracking.Stamp(t[ids[0]]).None? ||
      (Tracking.Stamp(t[ids[i]]).Some? && Tracking.Stamp(t[ids[0]]).value >= Tracking.Stamp(t[ids[i]]).value)
  {
    Tracking.FirstIsNewest(t, ids);
  }

  /** On the shipment of `NewestStatusNotRead`, reading the first entry gives
      "Delivered", the status the shipment has now. */
  lemma NewestStatusRead(ids: seq<nat>, rows: seq<Sql.Row>)
    requires var t := map[
      1 := map[Sql.ShipmentId := Sql.Int(7), Sql.Status := Sql.Str("Processing"), Sql.UpdatedAt := Sql.Int(10)],
      2 := map[Sql.ShipmentId := Sql.Int(7), Sql.Status := Sql.Str("Delivered"), Sql.UpdatedAt := Sql.Int(20)]];
      (forall k :: k in ids <==> Tracking.OfShipment(t, k, 7)) &&
      (forall i :: 0 <= i < |ids| ==> ids[i] in t) && Tracking.Sorted(t, ids) &&
      |rows| == |ids| && forall i :: 0 <= i < |ids| ==> rows[i] == t[ids[i]]
    ensures Orders.NewestTrackingStatus(Statuses(rows)) == Some("Delivered")
  {
    var t := map[
      1 := map[Sql.ShipmentId := Sql.Int(7), Sql.Status := Sql.Str("Processing"), Sql.UpdatedAt := Sql.Int(10)],
      2 := map[Sql.ShipmentId := Sql.Int(7), Sql.Status := Sql.Str("Delivered"), Sql.UpdatedAt := Sql.Int(20)]];
    assert Tracking.OfShipment(t, 2, 7);
    assert 2 in ids;
    var i :| 0 <= i < |ids| && ids[i] == 2;
    var first, newest := ids[0], ids[i];
    assert i == 0 || Tracking.Listed(t, first, newest);
    assert ids[0] in t;
    assert ids[0] == 2;
    NewestReadIsNewest(t, ids, rows);
  }

  /** A status webhook ShipXpress sends for an order reaches that order: its body is
      complete and the handler's UPDATE sets that row's shipment status and id. */
  lemma WebhookReachesOrder(orders: map<nat, Orders.Order>, shipmentId: nat, orderId: nat, status: string)
    requires status != "" && orderId in orders
    ensures Shipments.WebhookFor(shipmentId, Some(orderId), status).Some?
    ensures var w := Shipments.WebhookFor(shipmentId, Some(orderId), status).value;
      var p := Hook.Payload(Some(w.shipmentId), Some(w.orderId), Some(w.status));
      Hook.Complete(p) &&
      Hook.Applied(orders, p) == orders[orderId := Hook.Reported(orders[orderId], Dec(shipmentId), status)]
  {
    DecShape(shipmentId);
    Hook.AppliedToNamedOrder(orders, Dec(shipmentId), orderId, status);
  }
}
