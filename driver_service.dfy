/** The ShipXpress driver service. A single driver is returned with a profile photo,
    a generated avatar when none is stored; list queries return rows as stored.
    `encodeURIComponent` is a parameter. */
module DriverService {
  import opened Wrappers
  import opened Sql
  import opened ShipXpressDb

  const AvatarBase: string := "https://ui-avatars.com/api/?name="
  const AvatarStyle: string := "&background=FAB12F&color=fff&size=200"

  /** The ui-avatars URL for a driver name. */
  function AvatarUrl(name: Value, encode: Value -> string): string {
    AvatarBase + encode(name) + AvatarStyle
  }

  /** `driver(id)`: null for an unknown id; a stored photo is kept and a falsy one
      replaced by the avatar of `name_driver`; every other column as stored. */
  function Driver(db: Database, id: nat, encode: Value -> string): (r: Option<Row>)
    reads db
    ensures r.Some? <==> id in db.drivers
    ensures r.Some? ==>
      var row := db.drivers[id];
      r.value.Keys == row.Keys + {ProfilePhoto} &&
      (Truthy(Get(row, ProfilePhoto)) ==> r.value[ProfilePhoto] == row[ProfilePhoto]) &&
      (!Truthy(Get(row, ProfilePhoto)) ==> r.value[ProfilePhoto] == Str(AvatarUrl(Get(row, NameDriver), encode))) &&
      forall c :: c in row && c != ProfilePhoto ==> r.value[c] == row[c]
  {
    if id in db.drivers then
      var row := db.drivers[id];
      Some(row[ProfilePhoto := Or(Get(row, ProfilePhoto), Str(AvatarUrl(Get(row, NameDriver), encode)))])
    else None
  }

  /** The arguments of `createDriver`; the optional ones are `Null` when not given. */
  datatype NewDriver = NewDriver(nameDriver: string, phoneDriver: string, licenseDriver: string,
                                 vehicleId: Value, profilePhoto: Value)

  /** The row `createDriver` inserts: a falsy vehicle or photo is stored as null. */
  function DriverRow(args: NewDriver, now: int): (r: Row)
    ensures Get(r, NameDriver) == Str(args.nameDriver) && Get(r, PhoneDriver) == Str(args.phoneDriver)
    ensures Get(r, LicenseDriver) == Str(args.licenseDriver)
    ensures Get(r, VehicleId) == (if Truthy(args.vehicleId) then args.vehicleId else Null)
    ensures Get(r, ProfilePhoto) == (if Truthy(args.profilePhoto) then args.profilePhoto else Null)
  {
    map[NameDriver := Str(args.nameDriver), PhoneDriver := Str(args.phoneDriver),
        LicenseDriver := Str(args.licenseDriver), VehicleId := Or(args.vehicleId, Null),
        ProfilePhoto := Or(args.profilePhoto, Null), CreatedAt := Int(now)]
  }

  /** `createDriver`: one row under a fresh id, returned as stored (no avatar). */
  method CreateDriver(db: Database, args: NewDriver, now: int) returns (r: Row)
    requires db.Valid()
    modifies db`drivers, db`nextDriverId
    ensures db.Valid()
    ensures r == DriverRow(args, now)[DriverId := Int(old(db.nextDriverId))]
    ensures db.drivers == old(db.drivers)[old(db.nextDriverId) := r]
    ensures db.nextDriverId == old(db.nextDriverId) + 1
  {
    var id := db.InsertDriver(DriverRow(args, now));
    r := db.drivers[id];
  }

  /** `updateDriver`: no UPDATE without supplied arguments, otherwise exactly the
      supplied columns are set; the (updated) row, `None` for an unknown id. */
  method UpdateDriver(db: Database, id: nat, updates: seq<Binding>)
    returns (r: Option<Row>, issued: Option<Query>)
    requires db.Valid()
    modifies db`drivers
    ensures db.Valid()
    ensures Supplied(updates) == [] ==> issued == None && db.drivers == old(db.drivers)
    ensures Supplied(updates) != [] ==>
      issued == Some(SparseUpdate("drivers", DriverId, Supplied(updates), [], " RETURNING *", id)) &&
      db.drivers == UpdateRow(old(db.drivers), id, Supplied(updates))
    ensures r == RowAt(db.drivers, Int(id))
    ensures r.Some? <==> id in old(db.drivers)
  {
    var fields, values, paramCount := BuildSetList(updates);
    if |fields| == 0 {
      return RowAt(db.drivers, Int(id)), None;
    }
    assert fields + [] == fields;
    issued := Some(Query(UpdateStatement("drivers", fields, DriverId, paramCount, " RETURNING *"),
                         values + [Int(id)]));
    db.drivers := UpdateRow(db.drivers, id, Supplied(updates));
    r := RowAt(db.drivers, Int(id));
  }

  /** `deleteDriver`: true exactly when a row was removed. */
  method DeleteDriver(db: Database, id: nat) returns (removed: bool)
    requires db.Valid()
    modifies db`drivers
    ensures db.Valid()
    ensures removed <==> id in old(db.drivers)
    ensures db.drivers == old(db.drivers) - {id}
  {
    removed := id in db.drivers;
    db.drivers := Deleted(db.drivers, id).0;
  }

  /** `Driver.vehicle`: a `{ vehicle_id }` stub, or null without a vehicle. */
  function VehicleOf(row: Row): (r: Option<Row>)
    ensures r.Some? <==> Truthy(Get(row, VehicleId))
    ensures r.Some? ==> r.value.Keys == {VehicleId} && r.value[VehicleId] == row[VehicleId]
  {
    Reference(VehicleId, Get(row, VehicleId))
  }
}
