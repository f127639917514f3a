/** The ShipXpress tracking service: the tracking log of every shipment, one row
    per recorded position and status. */
module TrackingService {
  import opened Wrappers
  import opened Sql
  import opened ShipXpressDb

  /** The arguments of `createTrackingUpdate`; an optional argument that was not
      given is `Null` (both become `null` in the row). */
  datatype NewTracking = NewTracking(
    shipmentId: nat, location: string, status: string,
    recipientName: Value, recipientPhone: Value, recipientAddress: Value,
    itemName: Value, barcode: Value)

  /** The row `createTrackingUpdate` inserts: each optional field `|| null`; the
      timestamps take their column defaults, the clock reading `now`. */
  function CreationRow(args: NewTracking, now: int): (r: Row)
    ensures Get(r, ShipmentId) == Int(args.shipmentId)
    ensures Get(r, Location) == Str(args.location) && Get(r, Status) == Str(args.status)
    ensures Get(r, RecipientName) == Null <==> !Truthy(args.recipientName)
    ensures Get(r, RecipientPhone) == Null <==> !Truthy(args.recipientPhone)
    ensures Get(r, RecipientAddress) == Null <==> !Truthy(args.recipientAddress)
    ensures Get(r, ItemName) == Null <==> !Truthy(args.itemName)
    ensures Get(r, Barcode) == Null <==> !Truthy(args.barcode)
    ensures Truthy(args.recipientName) ==> Get(r, RecipientName) == args.recipientName
    ensures Truthy(args.recipientPhone) ==> Get(r, RecipientPhone) == args.recipientPhone
    ensures Truthy(args.recipientAddress) ==> Get(r, RecipientAddress) == args.recipientAddress
    ensures Truthy(args.itemName) ==> Get(r, ItemName) == args.itemName
    ensures Truthy(args.barcode) ==> Get(r, Barcode) == args.barcode
  {
    map[ShipmentId := Int(args.shipmentId), Location := Str(args.location), Status := Str(args.status),
        RecipientName := Or(args.recipientName, Null), RecipientPhone := Or(args.recipientPhone, Null),
        RecipientAddress := Or(args.recipientAddress, Null), ItemName := Or(args.itemName, Null),
        Barcode := Or(args.barcode, Null), CreatedAt := Int(now), UpdatedAt := Int(now)]
  }

  /** `createTrackingUpdate`: one row appended under a fresh id. */
  method CreateTrackingUpdate(db: Database, args: NewTracking, now: int) returns (r: Row)
    requires db.Valid()
    modifies db`trackingUpdates, db`nextTrackingId
    ensures db.Valid()
    ensures r == CreationRow(args, now)[TrackingId := Int(old(db.nextTrackingId))]
    ensures db.trackingUpdates == old(db.trackingUpdates)[old(db.nextTrackingId) := r]
    ensures db.nextTrackingId == old(db.nextTrackingId) + 1
  {
    var id := db.InsertTracking(CreationRow(args, now));
    r := db.trackingUpdates[id];
  }

  /** `updateTrackingUpdate`. With no supplied argument nothing is written and the
      stored row is returned; otherwise one UPDATE sets exactly the supplied columns
      and the updated row is returned. `None` is the `undefined` of `rows[0]` for an
      unknown id. `issued` is the UPDATE statement sent, if any. */
  method UpdateTrackingUpdate(db: Database, id: nat, updates: seq<Binding>)
    returns (r: Option<Row>, issued: Option<Query>)
    requires db.Valid()
    modifies db`trackingUpdates
    ensures db.Valid()
    ensures Supplied(updates) == [] ==>
      issued == None && db.trackingUpdates == old(db.trackingUpdates) &&
      r == RowAt(old(db.trackingUpdates), Int(id))
    ensures Supplied(updates) != [] ==>
      issued == Some(SparseUpdate("tracking_updates", TrackingId, Supplied(updates), [], " RETURNING *", id)) &&
      db.trackingUpdates == UpdateRow(old(db.trackingUpdates), id, Supplied(updates)) &&
      r == RowAt(db.trackingUpdates, Int(id))
    ensures r.Some? <==> id in old(db.trackingUpdates)
  {
    var fields, values, paramCount := BuildSetList(updates);
    if |fields| == 0 {
      return RowAt(db.trackingUpdates, Int(id)), None;
    }
    assert fields + [] == fields;
    issued := Some(Query(UpdateStatement("tracking_updates", fields, TrackingId, paramCount, " RETURNING *"),
                         values + [Int(id)]));
    db.trackingUpdates := UpdateRow(db.trackingUpdates, id, Supplied(updates));
    r := RowAt(db.trackingUpdates, Int(id));
  }

  /** `deleteTrackingUpdate`: true exactly when a row was removed. */
  method DeleteTrackingUpdate(db: Database, id: nat) returns (removed: bool)
    requires db.Valid()
    modifies db`trackingUpdates
    ensures db.Valid()
    ensures removed <==> id in old(db.trackingUpdates)
    ensures db.trackingUpdates == old(db.trackingUpdates) - {id}
  {
    removed := id in db.trackingUpdates;
    db.trackingUpdates := Deleted(db.trackingUpdates, id).0;
  }

  /** `TrackingUpdate.shipment`: a `{ shipment_id }` stub, or null without a shipment id. */
  function ShipmentOf(row: Row): (r: Option<Row>)
    ensures r.Some? <==> Truthy(Get(row, ShipmentId))
    ensures r.Some? ==> r.value.Keys == {ShipmentId} && r.value[ShipmentId] == row[ShipmentId]
  {
    Reference(ShipmentId, Get(row, ShipmentId))
  }

  // ---- trackingUpdatesByShipment -------------------------------------------

  /** `updated_at` as a sort key; anything but a timestamp is NULL. */
  function Stamp(row: Row): Option<int> {
    if Get(row, UpdatedAt).Int? then Some(Get(row, UpdatedAt).i) else None
  }

  /** `ORDER BY updated_at DESC, tracking_id DESC`: the entry (sa, a) is listed before
      (sb, b). Postgres lists NULL first in a descending order. */
  predicate Precedes(sa: Option<int>, a: nat, sb: Option<int>, b: nat) {
    if sa == sb then a > b
    else sa.None? || (sb.Some? && sa.value > sb.value)
  }

  lemma PrecedesTotal(sa: Option<int>, a: nat, sb: Option<int>, b: nat)
    requires a != b
    ensures Precedes(sa, a, sb, b) != Precedes(sb, b, sa, a)
  {
  }

  lemma PrecedesTransitive(sa: Option<int>, a: nat, sb: Option<int>, b: nat, sc: Option<int>, c: nat)
    requires Precedes(sa, a, sb, b) && Precedes(sb, b, sc, c)
    ensures Precedes(sa, a, sc, c)
  {
  }

  /** Row `a` of `t` is listed before row `b`. */
  predicate Listed(t: Table, a: nat, b: nat) {
    a in t && b in t && Precedes(Stamp(t[a]), a, Stamp(t[b]), b)
  }

  predicate Sorted(t: Table, ids: seq<nat>) {
    forall i, j :: 0 <= i < j < |ids| ==> Listed(t, ids[i], ids[j])
  }

  /** The rows of shipment `shipmentId`. */
  predicate OfShipment(t: Table, k: nat, shipmentId: nat) {
    k in t && Get(t[k], ShipmentId) == Int(shipmentId)
  }

  /** Inserts a key into a sorted list of keys at its place. */
  function InsertSorted(t: Table, ids: seq<nat>, k: nat): (r: seq<nat>)
    requires k in t && forall i :: 0 <= i < |ids| ==> ids[i] in t
    requires Sorted(t, ids) && k !in ids
    ensures multiset(r) == multiset(ids) + multiset{k}
    ensures Sorted(t, r)
  {
    if ids == [] then [k]
    else if Listed(t, k, ids[0]) then
      var r := [k] + ids;
      forall j | 1 <= j < |r| ensures Listed(t, r[0], r[j]) {
        if j > 1 {
          PrecedesTransitive(Stamp(t[k]), k, Stamp(t[ids[0]]), ids[0], Stamp(t[r[j]]), r[j]);
        }
      }
      r
    else
      var rest := InsertSorted(t, ids[1..], k);
      assert ids == [ids[0]] + ids[1..];
      var r := [ids[0]] + rest;
      forall j | 1 <= j < |r| ensures Listed(t, r[0], r[j]) {
        assert r[j] in multiset(rest);
        if r[j] == k {
          PrecedesTotal(Stamp(t[k]), k, Stamp(t[ids[0]]), ids[0]);
        } else {
          assert r[j] in ids[1..];
          var m :| 0 <= m < |ids[1..]| && ids[1..][m] == r[j];
          assert ids[m + 1] == r[j];
        }
      }
      r
  }

  /** `trackingUpdatesByShipment`: exactly the shipment's rows, each once, newest first. */
  method TrackingUpdatesByShipment(db: Database, shipmentId: nat) returns (ids: seq<nat>, rows: seq<Row>)
    ensures forall k :: k in ids <==> OfShipment(db.trackingUpdates, k, shipmentId)
    ensures forall i :: 0 <= i < |ids| ==> ids[i] in db.trackingUpdates
    ensures Sorted(db.trackingUpdates, ids)
    ensures |rows| == |ids| && forall i :: 0 <= i < |ids| ==> rows[i] == db.trackingUpdates[ids[i]]
  {
    var t := db.trackingUpdates;
    ids := [];
    var rest := t.Keys;
    while rest != {}
      invariant rest <= t.Keys
      invariant forall k :: k in ids <==> OfShipment(t, k, shipmentId) && k !in rest
      invariant forall i :: 0 <= i < |ids| ==> ids[i] in t
      invariant Sorted(t, ids)
      decreases rest
    {
      var k :| k in rest;
      if Get(t[k], ShipmentId) == Int(shipmentId) {
        var prev := ids;
        ids := InsertSorted(t, ids, k);
        assert forall x :: x in ids <==> x in multiset(ids);
        assert forall x :: x in prev <==> x in multiset(prev);
      }
      rest := rest - {k};
    }
    rows := [];
    var i := 0;
    while i < |ids|
      invariant 0 <= i <= |ids|
      invariant |rows| == i && forall j :: 0 <= j < i ==> rows[j] == t[ids[j]]
    {
      rows := rows + [t[ids[i]]];
      i := i + 1;
    }
  }

  /** A sorted list holds each key once. */
  lemma SortedDistinct(t: Table, ids: seq<nat>)
    requires Sorted(t, ids)
    ensures forall i, j :: 0 <= i < j < |ids| ==> ids[i] != ids[j]
  {
  }

  /** The last entry of the list is the shipment's oldest row: every other row has a
      later (or NULL) `updated_at`, or the same one and a larger id. */
  lemma LastIsOldest(t: Table, ids: seq<nat>)
    requires Sorted(t, ids) && ids != []
    ensures forall i :: 0 <= i < |ids| - 1 ==>
      var last := ids[|ids| - 1];
      Stamp(t[ids[i]]).None? ||
      (Stamp(t[last]).Some? && Stamp(t[ids[i]]).value >= Stamp(t[last]).value)
  {
  }

  /** The first entry of the list is the shipment's newest row: its `updated_at` is
      NULL (listed first) or no earlier than that of any other row. */
  lemma FirstIsNewest(t: Table, ids: seq<nat>)
    requires Sorted(t, ids) && ids != []
    ensures forall i :: 0 < i < |ids| ==>
      Listed(t, ids[0], ids[i]) &&
      (Stamp(t[ids[0]]).None? ||
       (Stamp(t[ids[i]]).Some? && Stamp(t[ids[0]]).value >= Stamp(t[ids[i]]).value))
  {
    assert forall i :: 0 < i < |ids| ==> Listed(t, ids[0], ids[i]);
  }
}
