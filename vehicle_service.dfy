/** The ShipXpress vehicle service. The vehicle type is stored in the column that
    Postgres folds `V_type` into (`v_type`) and returned as the field `V_type`,
    defaulting to "Truck". */
module VehicleService {
  import opened Wrappers
  import opened Sql
  import opened ShipXpressDb

  const DefaultType: Value := Str("Truck")

  /** The TypeError of reading `v_type` from the `undefined` row of an unknown id. */
  const NoRow: string := "Cannot read properties of undefined (reading 'v_type')"

  /** The queries' `{ ...row, V_type: row.v_type || row.V_type || 'Truck' }`. */
  function QueriedVehicle(row: Row): (r: Row)
    ensures r.Keys == row.Keys + {VTypeField}
    ensures Truthy(Get(row, VType)) ==> r[VTypeField] == row[VType]
    ensures !Truthy(Get(row, VType)) && Truthy(Get(row, VTypeField)) ==> r[VTypeField] == row[VTypeField]
    ensures !Truthy(Get(row, VType)) && !Truthy(Get(row, VTypeField)) ==> r[VTypeField] == DefaultType
    ensures forall c :: c in row && c != VTypeField ==> r[c] == row[c]
  {
    row[VTypeField := Or(Or(Get(row, VType), Get(row, VTypeField)), DefaultType)]
  }

  /** `updateVehicle`'s and `__resolveReference`'s `{ ...row, V_type: row.v_type || 'Truck' }`. */
  function StoredVehicle(row: Row): (r: Row)
    ensures r.Keys == row.Keys + {VTypeField}
    ensures Truthy(Get(row, VType)) ==> r[VTypeField] == row[VType]
    ensures !Truthy(Get(row, VType)) ==> r[VTypeField] == DefaultType
    ensures forall c :: c in row && c != VTypeField ==> r[c] == row[c]
  {
    row[VTypeField := Or(Get(row, VType), DefaultType)]
  }

  /** On a row read back from the table, which never holds the unfolded field, both
      mappings agree. */
  lemma MappingsAgree(row: Row)
    requires VTypeField !in row
    ensures QueriedVehicle(row) == StoredVehicle(row)
  {
  }

  /** `vehicle(id)`: null for an unknown id. */
  function Vehicle(db: Database, id: nat): (r: Option<Row>)
    reads db
    ensures r.Some? <==> id in db.vehicles
    ensures r.Some? ==> r.value == QueriedVehicle(db.vehicles[id]) && Truthy(r.value[VTypeField])
  {
    if id in db.vehicles then Some(QueriedVehicle(db.vehicles[id])) else None
  }

  /** `Vehicle.__resolveReference`: null for an unknown id. */
  function ResolveReference(db: Database, id: nat): (r: Option<Row>)
    reads db
    ensures r.Some? <==> id in db.vehicles
    ensures r.Some? ==> r.value == StoredVehicle(db.vehicles[id]) && Truthy(r.value[VTypeField])
  {
    if id in db.vehicles then Some(StoredVehicle(db.vehicles[id])) else None
  }

  /** The arguments of `createVehicle` (all required). */
  datatype NewVehicle = NewVehicle(vType: string, licensePlate: string, capacity: real, status: string)

  /** `V_type || 'Truck'`. */
  function TypeToSave(vType: string): (r: Value)
    ensures vType != "" ==> r == Str(vType)
    ensures vType == "" ==> r == DefaultType
  {
    Or(Str(vType), DefaultType)
  }

  function VehicleRow(args: NewVehicle, now: int): Row {
    map[VType := TypeToSave(args.vType), LicensePlate := Str(args.licensePlate),
        Capacity := Num(args.capacity), Status := Str(args.status), CreatedAt := Int(now)]
  }

  /** `createVehicle`: one row under a fresh id holding the given type or "Truck";
      the answer's `V_type` is that type. */
  method CreateVehicle(db: Database, args: NewVehicle, now: int) returns (r: Row)
    requires db.Valid()
    modifies db`vehicles, db`nextVehicleId
    ensures db.Valid()
    ensures db.vehicles == old(db.vehicles)[old(db.nextVehicleId) :=
      VehicleRow(args, now)[VehicleId := Int(old(db.nextVehicleId))]]
    ensures db.nextVehicleId == old(db.nextVehicleId) + 1
    ensures r == db.vehicles[old(db.nextVehicleId)][VTypeField := TypeToSave(args.vType)]
    ensures Truthy(r[VTypeField])
  {
    var typeToSave := TypeToSave(args.vType);
    var id := db.InsertVehicle(VehicleRow(args, now));
    var row := db.vehicles[id];
    r := row[VTypeField := Or(Get(row, VType), typeToSave)];
  }

  /** `updateVehicle`. With no supplied argument nothing is written and the stored
      row is returned, `None` for an unknown id. Otherwise exactly the supplied
      columns are set (the argument `V_type` written as `V_type`), and an unknown id
      ends in the TypeError of mapping the missing row. */
  method UpdateVehicle(db: Database, id: nat, updates: seq<Binding>)
    returns (r: Result<Option<Row>>, issued: Option<Query>)
    requires db.Valid()
    modifies db`vehicles
    ensures db.Valid()
    ensures Supplied(updates) == [] ==>
      issued == None && db.vehicles == old(db.vehicles) &&
      r == Ok(if id in old(db.vehicles) then Some(StoredVehicle(old(db.vehicles)[id])) else None)
    ensures Supplied(updates) != [] ==>
      issued == Some(SparseUpdate("vehicles", VehicleId, Supplied(updates), [], " RETURNING *", id)) &&
      db.vehicles == UpdateRow(old(db.vehicles), id, Supplied(updates)) &&
      r == (if id in old(db.vehicles) then Ok(Some(StoredVehicle(db.vehicles[id]))) else Err(NoRow))
  {
    var fields, values, paramCount := BuildSetList(updates);
    if |fields| == 0 {
      issued := None;
      if id in db.vehicles {
        r := Ok(Some(StoredVehicle(db.vehicles[id])));
      } else {
        r := Ok(None);
      }
      return;
    }
    assert fields + [] == fields;
    issued := Some(Query(UpdateStatement("vehicles", fields, VehicleId, paramCount, " RETURNING *"),
                         values + [Int(id)]));
    db.vehicles := UpdateRow(db.vehicles, id, Supplied(updates));
    if id in db.vehicles {
      r := Ok(Some(StoredVehicle(db.vehicles[id])));
    } else {
      r := Err(NoRow);
    }
  }

  /** `(rowCount || 0) > 0`, with a missing row count as `None`. */
  function Affirmed(rowCount: Option<nat>): (b: bool)
    ensures b <==> rowCount.Some? && rowCount.value > 0
  {
    (if rowCount.Some? then rowCount.value else 0) > 0
  }

  /** `deleteVehicle`: true exactly when a row was removed. */
  method DeleteVehicle(db: Database, id: nat) returns (removed: bool)
    requires db.Valid()
    modifies db`vehicles
    ensures db.Valid()
    ensures removed <==> id in old(db.vehicles)
    ensures db.vehicles == old(db.vehicles) - {id}
  {
    var rowCount := if id in db.vehicles then 1 else 0;
    db.vehicles := Deleted(db.vehicles, id).0;
    removed := Affirmed(Some(rowCount));
  }
}
