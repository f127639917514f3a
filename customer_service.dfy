/** The ShipXpress customer service. Every customer it returns carries the GraphQL
    field `C_type`, copied from the column `c_type` that Postgres folded it into. */
module CustomerService {
  import opened Wrappers
  import opened Sql
  import opened ShipXpressDb

  /** The TypeError of reading `c_type` from the `undefined` row of an unknown id. */
  const NoRow: string := "Cannot read properties of undefined (reading 'c_type')"

  /** `{ ...row, C_type: row.c_type }`. */
  function WithCType(row: Row): (r: Row)
    ensures r.Keys == row.Keys + {CTypeField}
    ensures r[CTypeField] == Get(row, CType)
    ensures forall c :: c in row && c != CTypeField ==> r[c] == row[c]
  {
    row[CTypeField := Get(row, CType)]
  }

  /** `customers`: the stored rows in the order the query returns them, each with `C_type`. */
  function Customers(rows: seq<Row>): (r: seq<Row>)
    ensures |r| == |rows|
    ensures forall i :: 0 <= i < |rows| ==>
      CTypeField in r[i] && r[i][CTypeField] == Get(rows[i], CType) && rows[i].Keys <= r[i].Keys
  {
    seq(|rows|, i requires 0 <= i < |rows| => WithCType(rows[i]))
  }

  /** The `customers` query: every stored customer exactly once, each with `C_type`.
      `ids` are the keys of the rows in the order listed. */
  method ListCustomers(db: Database) returns (ids: seq<nat>, r: seq<Row>)
    ensures forall k :: k in ids <==> k in db.customers
    ensures forall i, j :: 0 <= i < j < |ids| ==> ids[i] != ids[j]
    ensures |r| == |ids|
    ensures forall i :: 0 <= i < |ids| ==> ids[i] in db.customers && r[i] == WithCType(db.customers[ids[i]])
  {
    var t := db.customers;
    var rows: seq<Row> := [];
    ids := [];
    var rest := t.Keys;
    while rest != {}
      invariant rest <= t.Keys
      invariant forall k :: k in ids <==> k in t && k !in rest
      invariant forall i, j :: 0 <= i < j < |ids| ==> ids[i] != ids[j]
      invariant |rows| == |ids| && forall i :: 0 <= i < |ids| ==> ids[i] in t && rows[i] == t[ids[i]]
      decreases rest
    {
      var k :| k in rest;
      ids, rows := ids + [k], rows + [t[k]];
      rest := rest - {k};
    }
    r := Customers(rows);
  }

  /** `customer(id)`: null for an unknown id. */
  function Customer(db: Database, id: nat): (r: Option<Row>)
    reads db
    ensures r.Some? <==> id in db.customers
    ensures r.Some? ==> r.value == WithCType(db.customers[id])
  {
    if id in db.customers then Some(WithCType(db.customers[id])) else None
  }

  /** The arguments of `createCustomer` (all required). */
  datatype NewCustomer = NewCustomer(name: string, email: string, phone: string, address: string, cType: string)

  function CustomerRow(args: NewCustomer, now: int): Row {
    map[Name := Str(args.name), Email := Str(args.email), Phone := Str(args.phone),
        Address := Str(args.address), CType := Str(args.cType), CreatedAt := Int(now)]
  }

  /** `createCustomer`: one row under a fresh id, returned with `C_type` equal to the given type. */
  method CreateCustomer(db: Database, args: NewCustomer, now: int) returns (r: Row)
    requires db.Valid()
    modifies db`customers, db`nextCustomerId
    ensures db.Valid()
    ensures db.customers == old(db.customers)[old(db.nextCustomerId) :=
      CustomerRow(args, now)[CustomerId := Int(old(db.nextCustomerId))]]
    ensures db.nextCustomerId == old(db.nextCustomerId) + 1
    ensures r == WithCType(db.customers[old(db.nextCustomerId)])
    ensures r[CTypeField] == Str(args.cType)
  {
    var id := db.InsertCustomer(CustomerRow(args, now));
    r := WithCType(db.customers[id]);
  }

  /** `updateCustomer`. With no supplied argument nothing is written; otherwise one
      UPDATE sets exactly the supplied columns. Either way an unknown id ends in the
      TypeError of mapping the missing row. */
  method UpdateCustomer(db: Database, id: nat, updates: seq<Binding>)
    returns (r: Result<Row>, issued: Option<Query>)
    requires db.Valid()
    modifies db`customers
    ensures db.Valid()
    ensures Supplied(updates) == [] ==> issued == None && db.customers == old(db.customers)
    ensures Supplied(updates) != [] ==>
      issued == Some(SparseUpdate("customers", CustomerId, Supplied(updates), [], " RETURNING *", id)) &&
      db.customers == UpdateRow(old(db.customers), id, Supplied(updates))
    ensures id !in old(db.customers) ==> r == Err(NoRow) && db.customers == old(db.customers)
    ensures id in old(db.customers) ==> r == Ok(WithCType(db.customers[id]))
  {
    var fields, values, paramCount := BuildSetList(updates);
    if |fields| == 0 {
      issued := None;
    } else {
      assert fields + [] == fields;
      issued := Some(Query(UpdateStatement("customers", fields, CustomerId, paramCount, " RETURNING *"),
                           values + [Int(id)]));
      db.customers := UpdateRow(db.customers, id, Supplied(updates));
    }
    if id in db.customers {
      r := Ok(WithCType(db.customers[id]));
    } else {
      r := Err(NoRow);
    }
  }

  /** `deleteCustomer`: true exactly when a row was removed. */
  method DeleteCustomer(db: Database, id: nat) returns (removed: bool)
    requires db.Valid()
    modifies db`customers
    ensures db.Valid()
    ensures removed <==> id in old(db.customers)
    ensures db.customers == old(db.customers) - {id}
  {
    removed := id in db.customers;
    db.customers := Deleted(db.customers, id).0;
  }
}
