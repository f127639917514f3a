/** The ShipXpress Postgres database as the resolvers see it: one table per
    service, each keyed by its serial primary key, with the sequence's next value
    beside it. Rows are generic column maps because the resolvers return
    `SELECT *` rows and write arbitrary columns through the sparse UPDATE builder.
    Timestamps are integers supplied by the caller. */
module ShipXpressDb {
  import opened Wrappers
  import opened Sql

  class Database {
    var customers: Table
    var nextCustomerId: nat
    var shipments: Table
    var nextShipmentId: nat
    var trackingUpdates: Table
    var nextTrackingId: nat
    var drivers: Table
    var nextDriverId: nat
    var vehicles: Table
    var nextVehicleId: nat
    var users: Table
    var nextUserId: nat

    /** Every stored key lies below its sequence's next value, so `nextval` is fresh. */
    ghost predicate Valid() reads this {
      BelowCounter(customers, nextCustomerId) && BelowCounter(shipments, nextShipmentId) &&
      BelowCounter(trackingUpdates, nextTrackingId) && BelowCounter(drivers, nextDriverId) &&
      BelowCounter(vehicles, nextVehicleId) && BelowCounter(users, nextUserId)
    }

    constructor ()
      ensures Valid()
      ensures customers == map[] && shipments == map[] && trackingUpdates == map[]
      ensures drivers == map[] && vehicles == map[] && users == map[]
      ensures nextCustomerId == 1 && nextShipmentId == 1 && nextTrackingId == 1
      ensures nextDriverId == 1 && nextVehicleId == 1 && nextUserId == 1
    {
      customers, shipments, trackingUpdates := map[], map[], map[];
      drivers, vehicles, users := map[], map[], map[];
      nextCustomerId, nextShipmentId, nextTrackingId := 1, 1, 1;
      nextDriverId, nextVehicleId, nextUserId := 1, 1, 1;
    }

    /** `INSERT INTO customers ... RETURNING *` with the serial key: the row, with its key
        column filled in, is stored under the sequence's next value, which was free,
        and the sequence advances. */
    method InsertCustomer(row: Row) returns (id: nat)
      requires Valid()
      modifies this`customers, this`nextCustomerId
      ensures Valid()
      ensures id == old(nextCustomerId) && id !in old(customers)
      ensures customers == old(customers)[id := row[CustomerId := Int(id)]] && nextCustomerId == id + 1
    {
      id := nextCustomerId;
      customers := customers[id := row[CustomerId := Int(id)]];
      nextCustomerId := id + 1;
    }

    /** `INSERT INTO shipments ... RETURNING *` with the serial key: the row, with its key
        column filled in, is stored under the sequence's next value, which was free,
        and the sequence advances. */
    method InsertShipment(row: Row) returns (id: nat)
      requires Valid()
      modifies this`shipments, this`nextShipmentId
      ensures Valid()
      ensures id == old(nextShipmentId) && id !in old(shipments)
      ensures shipments == old(shipments)[id := row[ShipmentId := Int(id)]] && nextShipmentId == id + 1
    {
      id := nextShipmentId;
      shipments := shipments[id := row[ShipmentId := Int(id)]];
      nextShipmentId := id + 1;
    }

    /** `INSERT INTO tracking_updates ... RETURNING *` with the serial key: the row, with its key
        column filled in, is stored under the sequence's next value, which was free,
        and the sequence advances. */
    method InsertTracking(row: Row) returns (id: nat)
      requires Valid()
      modifies this`trackingUpdates, this`nextTrackingId
      ensures Valid()
      ensures id == old(nextTrackingId) && id !in old(trackingUpdates)
      ensures trackingUpdates == old(trackingUpdates)[id := row[TrackingId := Int(id)]] && nextTrackingId == id + 1
    {
      id := nextTrackingId;
      trackingUpdates := trackingUpdates[id := row[TrackingId := Int(id)]];
      nextTrackingId := id + 1;
    }

    /** `INSERT INTO drivers ... RETURNING *` with the serial key: the row, with its key
        column filled in, is stored under the sequence's next value, which was free,
        and the sequence advances. */
    method InsertDriver(row: Row) returns (id: nat)
      requires Valid()
      modifies this`drivers, this`nextDriverId
      ensures Valid()
      ensures id == old(nextDriverId) && id !in old(drivers)
      ensures drivers == old(drivers)[id := row[DriverId := Int(id)]] && nextDriverId == id + 1
    {
      id := nextDriverId;
      drivers := drivers[id := row[DriverId := Int(id)]];
      nextDriverId := id + 1;
    }

    /** `INSERT INTO vehicles ... RETURNING *` with the serial key: the row, with its key
        column filled in, is stored under the sequence's next value, which was free,
        and the sequence advances. */
    method InsertVehicle(row: Row) returns (id: nat)
      requires Valid()
      modifies this`vehicles, this`nextVehicleId
      ensures Valid()
      ensures id == old(nextVehicleId) && id !in old(vehicles)
      ensures vehicles == old(vehicles)[id := row[VehicleId := Int(id)]] && nextVehicleId == id + 1
    {
      id := nextVehicleId;
      vehicles := vehicles[id := row[VehicleId := Int(id)]];
      nextVehicleId := id + 1;
    }

    /** `INSERT INTO users ... RETURNING *` with the serial key: the row, with its key
        column filled in, is stored under the sequence's next value, which was free,
        and the sequence advances. */
    method InsertUser(row: Row) returns (id: nat)
      requires Valid()
      modifies this`users, this`nextUserId
      ensures Valid()
      ensures id == old(nextUserId) && id !in old(users)
      ensures users == old(users)[id := row[UserId := Int(id)]] && nextUserId == id + 1
    {
      id := nextUserId;
      users := users[id := row[UserId := Int(id)]];
      nextUserId := id + 1;
    }
  }

  predicate BelowCounter(t: Table, next: nat) {
    forall k :: k in t ==> k < next
  }

  /** An id column's value as a table key: ids are non-negative integers. */
  function KeyOf(v: Value): Option<nat> {
    if v.Int? && v.i >= 0 then Some(v.i) else None
  }

  /** `SELECT * FROM t WHERE id = $1` followed by `rows[0]`. */
  function RowAt(t: Table, v: Value): (r: Option<Row>)
    ensures r.Some? <==> KeyOf(v).Some? && KeyOf(v).value in t
    ensures r.Some? ==> r.value == t[KeyOf(v).value]
  {
    match KeyOf(v)
    case Some(k) => if k in t then Some(t[k]) else None
    case None => None
  }

  /** A federation stub `{ col: value }`, or null when the value is falsy. */
  function Reference(col: Column, v: Value): (r: Option<Row>)
    ensures r.Some? <==> Truthy(v)
    ensures r.Some? ==> r.value == map[col := v]
  {
    if Truthy(v) then Some(map[col := v]) else None
  }

  /** `DELETE FROM t WHERE id = $1` with `rowCount > 0`: the row goes, and the
      answer says whether there was one. */
  function Deleted(t: Table, id: nat): (r: (Table, bool))
    ensures r.0 == t - {id}
    ensures r.1 <==> id in t
    ensures forall k :: k in r.0 ==> r.0[k] == t[k]
  {
    (t - {id}, id in t)
  }

  /** A row inserted under `k` reads back by `k`, and no other id reads differently. */
  lemma RowAtInserted(t: Table, k: nat, row: Row)
    ensures RowAt(t[k := row], Int(k)) == Some(row)
    ensures forall v :: KeyOf(v) != Some(k) ==> RowAt(t[k := row], v) == RowAt(t, v)
  {
  }

  /** After `UPDATE ... WHERE id = k` the read-back by `k` is the stored row with the
      SET list applied (none for an unknown id), and no other id reads differently. */
  lemma RowAtUpdated(t: Table, k: nat, s: seq<(Column, Value)>)
    ensures RowAt(UpdateRow(t, k, s), Int(k)) == (if k in t then Some(ApplySet(t[k], s)) else None)
    ensures forall v :: KeyOf(v) != Some(k) ==> RowAt(UpdateRow(t, k, s), v) == RowAt(t, v)
  {
  }

  /** A stub built from a row's reference column resolves, by the id it holds, to
      the referenced row; a missing, null or zero reference gives no stub. */
  lemma ReferenceResolves(t: Table, col: Column, row: Row, k: nat)
    ensures col !in row || row[col] == Null || row[col] == Int(0) ==> Reference(col, Get(row, col)) == None
    ensures Get(row, col) == Int(k) && k != 0 && k in t ==>
      Reference(col, Get(row, col)).Some? && RowAt(t, Get(Reference(col, Get(row, col)).value, col)) == Some(t[k])
  {
  }

  /** A second DELETE of the same id finds nothing and changes nothing, and the
      deleted id no longer reads back. */
  lemma DeletedTwice(t: Table, id: nat)
    ensures Deleted(Deleted(t, id).0, id) == (Deleted(t, id).0, false)
    ensures RowAt(Deleted(t, id).0, Int(id)) == None
  {
    var once := t - {id};
    assert id !in once;
    assert once - {id} == once;
  }

  /** Deleting a row just inserted under a fresh id restores the table and reports a removal. */
  lemma DeleteUndoesInsert(t: Table, id: nat, row: Row)
    requires id !in t
    ensures Deleted(t[id := row], id) == (t, true)
  {
    assert t[id := row] - {id} == t;
  }
}
