/** Rows, resolver arguments and the sparse `UPDATE ... SET` builder that the
    ShipXpress services repeat: every argument other than the id that is not
    `undefined` becomes `key = $k`, numbered from 1 in key order, and the id is
    bound at `$(n+1)`. */
module Sql {
  import opened Wrappers
  import opened Text

  /** A value bound to a query parameter or read from a column. */
  datatype Value = Null | Str(s: string) | Int(i: int) | Num(r: real)

  /** JavaScript truthiness of a value. */
  predicate Truthy(v: Value) {
    match v
    case Null => false
    case Str(s) => s != ""
    case Int(i) => i != 0
    case Num(r) => r != 0.0
  }

  /** `v || fallback`. */
  function Or(v: Value, fallback: Value): Value {
    if Truthy(v) then v else fallback
  }

  /** A resolver argument: absent (`undefined`) or supplied, possibly as `null`. */
  datatype Arg = Undefined | Defined(v: Value)

  /** JavaScript truthiness of an argument: `undefined` is falsy. */
  predicate ArgTruthy(a: Arg) {
    a.Defined? && Truthy(a.v)
  }

  /** A column of a ShipXpress table, or a field a resolver adds to a row it
      returns (`C_type`, `S_type`, `V_type`). A column stands for its identifier
      as Postgres folds it, so the argument `S_type` names column `s_type`;
      the fields added by the resolvers are distinct from the folded columns. */
  newtype Column = c: int | 0 <= c < 38

  const CustomerId: Column := 0
  const Name: Column := 1
  const Email: Column := 2
  const Phone: Column := 3
  const Address: Column := 4
  const CType: Column := 5
  const ShipmentId: Column := 6
  const OriginAddress: Column := 7
  const DestinationAddress: Column := 8
  const SType: Column := 9
  const Weight: Column := 10
  const Status: Column := 11
  const VehicleId: Column := 12
  const TrackingId: Column := 13
  const Location: Column := 14
  const RecipientName: Column := 15
  const RecipientPhone: Column := 16
  const RecipientAddress: Column := 17
  const ItemName: Column := 18
  const Barcode: Column := 19
  const DriverId: Column := 20
  const NameDriver: Column := 21
  const PhoneDriver: Column := 22
  const LicenseDriver: Column := 23
  const ProfilePhoto: Column := 24
  const VType: Column := 25
  const LicensePlate: Column := 26
  const Capacity: Column := 27
  const UserId: Column := 28
  const Username: Column := 29
  const PasswordHash: Column := 30
  const Role: Column := 31
  const FullName: Column := 32
  const CreatedAt: Column := 33
  const UpdatedAt: Column := 34
  const CTypeField: Column := 35
  const STypeField: Column := 36
  const VTypeField: Column := 37

  /** How the resolvers spell each column in an arguments object, and so in a SET fragment. */
  const ArgNames: seq<string> := [
    "customer_id", "name", "email", "phone", "address", "C_type", "shipment_id", "origin_address",
    "destination_address", "S_type", "weight", "status", "vehicle_id", "tracking_id", "location",
    "recipient_name", "recipient_phone", "recipient_address", "item_name", "barcode", "driver_id",
    "name_driver", "phone_driver", "license_driver", "profile_photo", "V_type", "license_plate",
    "capacity", "user_id", "username", "password_hash", "role", "full_name", "created_at",
    "updated_at", "C_type", "S_type", "V_type"
  ]

  function ArgName(c: Column): string {
    if 0 <= c as int < |ArgNames| then ArgNames[c] else ""
  }

  /** One own property of an arguments object, in the object's key order. */
  datatype Binding = Binding(key: Column, arg: Arg)

  /** A row as `pg` returns it (column to value), or as a resolver returns it. */
  type Row = map<Column, Value>

  /** A table keyed by its serial primary key. */
  type Table = map<nat, Row>

  /** `row[col]`, where a missing property reads as `undefined` (falsy, like `null`). */
  function Get(row: Row, col: Column): Value {
    if col in row then row[col] else Null
  }

  predicate DistinctKeys(updates: seq<Binding>) {
    forall i, j :: 0 <= i < j < |updates| ==> updates[i].key != updates[j].key
  }

  /** The property names of an arguments object. */
  function Keys(updates: seq<Binding>): set<Column> {
    set i | 0 <= i < |updates| :: updates[i].key
  }

  /** `updates[key]`: the argument bound to `key`, `undefined` when there is none. */
  function Lookup(updates: seq<Binding>, key: Column): Arg {
    if updates == [] then Undefined
    else if updates[|updates| - 1].key == key then updates[|updates| - 1].arg
    else Lookup(updates[..|updates| - 1], key)
  }

  lemma {:induction false} LookupAbsent(updates: seq<Binding>, key: Column)
    requires key !in Keys(updates)
    ensures Lookup(updates, key) == Undefined
  {
    if updates != [] {
      var n := |updates| - 1;
      assert Keys(updates[..n]) <= Keys(updates) by {
        forall k | k in Keys(updates[..n]) ensures k in Keys(updates) {
          var i :| 0 <= i < n && updates[..n][i].key == k;
          assert updates[i].key == k;
        }
      }
      LookupAbsent(updates[..n], key);
    }
  }

  lemma {:induction false} LookupAt(updates: seq<Binding>, i: nat)
    requires DistinctKeys(updates) && i < |updates|
    ensures Lookup(updates, updates[i].key) == updates[i].arg
  {
    var n := |updates| - 1;
    if i < n {
      assert updates[n].key != updates[i].key;
      assert updates[..n][i] == updates[i];
      LookupAt(updates[..n], i);
    }
  }

  /** Where property `key` sits in the object. */
  function IndexOf(updates: seq<Binding>, key: Column): (i: nat)
    requires key in Keys(updates)
    ensures i < |updates| && updates[i].key == key
  {
    if updates[0].key == key then 0
    else
      assert key in Keys(updates[1..]) by {
        var j :| 0 <= j < |updates| && updates[j].key == key;
        assert updates[1..][j - 1] == updates[j];
      }
      1 + IndexOf(updates[1..], key)
  }

  /** `updates[key] = v`: overwrites the property in place, or appends it as the last one. */
  function Assign(updates: seq<Binding>, key: Column, v: Value): (r: seq<Binding>)
    requires DistinctKeys(updates)
    ensures DistinctKeys(r)
    ensures Keys(r) == Keys(updates) + {key}
    ensures Lookup(r, key) == Defined(v)
    ensures forall k :: k != key ==> Lookup(r, k) == Lookup(updates, k)
  {
    var b := Binding(key, Defined(v));
    if key in Keys(updates) then
      var i := IndexOf(updates, key);
      var r := updates[i := b];
      assert Keys(r) == Keys(updates) by {
        forall k | k in Keys(updates) ensures k in Keys(r) {
          var j :| 0 <= j < |updates| && updates[j].key == k;
          assert r[j].key == k;
        }
      }
      LookupAt(r, i);
      forall k | k != key ensures Lookup(r, k) == Lookup(updates, k) {
        if k in Keys(updates) {
          var j :| 0 <= j < |updates| && updates[j].key == k;
          LookupAt(r, j);
          LookupAt(updates, j);
        } else {
          LookupAbsent(r, k);
          LookupAbsent(updates, k);
        }
      }
      r
    else
      var r := updates + [b];
      assert r[..|updates|] == updates;
      assert Keys(r) == Keys(updates) + {key} by {
        forall k | k in Keys(updates) ensures k in Keys(r) {
          var j :| 0 <= j < |updates| && updates[j].key == k;
          assert r[j].key == k;
        }
        assert r[|updates|].key == key;
      }
      r
  }

  /** The supplied (`!== undefined`) properties with their values, in key order:
      what the `forEach` loop turns into SET fragments. */
  function Supplied(updates: seq<Binding>): (s: seq<(Column, Value)>)
    ensures |s| <= |updates|
    ensures forall j :: 0 <= j < |s| ==> s[j].0 in Keys(updates)
  {
    var n := |updates| - 1;
    assert n >= 0 ==> forall k :: k in Keys(updates[..n]) ==> k in Keys(updates) by {
      if n >= 0 {
        forall k | k in Keys(updates[..n]) ensures k in Keys(updates) {
          var i :| 0 <= i < n && updates[..n][i].key == k;
          assert updates[i].key == k;
        }
      }
    }
    if updates == [] then []
    else
      var last := updates[|updates| - 1];
      Supplied(updates[..|updates| - 1]) + (if last.arg.Defined? then [(last.key, last.arg.v)] else [])
  }

  /** The parameter placeholder `$k`. */
  function Placeholder(k: nat): string {
    "$" + Dec(k)
  }

  /** The SET fragment `col = $k`. */
  function Assignment(col: Column, k: nat): string {
    ArgName(col) + " = " + Placeholder(k)
  }

  /** The SET fragments of a list of supplied columns, numbered from `$1`. */
  function Fragments(s: seq<(Column, Value)>): seq<string> {
    seq(|s|, k requires 0 <= k < |s| => Assignment(s[k].0, k + 1))
  }

  /** The values bound to those fragments, in the same order. */
  function Params(s: seq<(Column, Value)>): seq<Value> {
    seq(|s|, k requires 0 <= k < |s| => s[k].1)
  }

  /** A statement handed to `query(text, values)`. */
  datatype Query = Query(text: string, params: seq<Value>)

  /** Appending a supplied column appends its fragment and its value. */
  lemma FragmentsSnoc(s: seq<(Column, Value)>, c: (Column, Value))
    ensures Fragments(s + [c]) == Fragments(s) + [Assignment(c.0, |s| + 1)]
    ensures Params(s + [c]) == Params(s) + [c.1]
  {
    assert forall k :: 0 <= k < |s| ==> (s + [c])[k] == s[k];
  }

  /** The builder loop: SET fragments, bound values, and the placeholder number of the id. */
  method BuildSetList(updates: seq<Binding>) returns (fields: seq<string>, values: seq<Value>, paramCount: nat)
    ensures fields == Fragments(Supplied(updates)) && values == Params(Supplied(updates))
    ensures |fields| == |values| == |Supplied(updates)|
    ensures paramCount == |fields| + 1
    ensures forall k :: 0 <= k < |fields| ==>
      fields[k] == Assignment(Supplied(updates)[k].0, k + 1) && values[k] == Supplied(updates)[k].1
  {
    fields, values, paramCount := [], [], 1;
    var i := 0;
    while i < |updates|
      invariant 0 <= i <= |updates|
      invariant fields == Fragments(Supplied(updates[..i])) && values == Params(Supplied(updates[..i]))
      invariant paramCount == |fields| + 1
    {
      assert updates[..i + 1][..i] == updates[..i];
      var b := updates[i];
      if b.arg.Defined? {
        FragmentsSnoc(Supplied(updates[..i]), (b.key, b.arg.v));
        fields := fields + [Assignment(b.key, paramCount)];
        values := values + [b.arg.v];
        paramCount := paramCount + 1;
      }
      i := i + 1;
    }
    assert updates[..i] == updates;
  }

  /** A key is supplied exactly when its argument is not `undefined`, and then with that value. */
  lemma {:induction false} SuppliedExactly(updates: seq<Binding>, key: Column)
    requires DistinctKeys(updates)
    ensures Lookup(updates, key).Defined? <==> exists j :: 0 <= j < |Supplied(updates)| && Supplied(updates)[j].0 == key
    ensures forall j :: 0 <= j < |Supplied(updates)| && Supplied(updates)[j].0 == key ==>
      Supplied(updates)[j].1 == Lookup(updates, key).v
  {
    if updates != [] {
      var n := |updates| - 1;
      var init := updates[..n];
      SuppliedExactly(init, key);
      if updates[n].key == key {
        assert key !in Keys(init);
        var si := Supplied(init);
        var su := Supplied(updates);
        assert su == si + (if updates[n].arg.Defined? then [(key, updates[n].arg.v)] else []);
        assert forall j :: 0 <= j < |si| ==> si[j].0 != key;
        assert forall j :: 0 <= j < |si| ==> su[j] == si[j];
        assert Lookup(updates, key) == updates[n].arg;
        if updates[n].arg.Defined? {
          assert su[|si|].0 == key;
        }
        forall j | 0 <= j < |su| && su[j].0 == key ensures j == |si| {
          if j < |si| { assert false; }
        }
        assert Lookup(updates, key).Defined? ==> exists j :: 0 <= j < |su| && su[j].0 == key;
        assert (exists j :: 0 <= j < |su| && su[j].0 == key) ==> Lookup(updates, key).Defined?;
        assert forall j :: 0 <= j < |su| && su[j].0 == key ==> su[j].1 == Lookup(updates, key).v;
        assert Lookup(updates, key).Defined? ==> exists j :: 0 <= j < |Supplied(updates)| && Supplied(updates)[j].0 == key;
        assert (exists j :: 0 <= j < |Supplied(updates)| && Supplied(updates)[j].0 == key) ==> Lookup(updates, key).Defined?;
      } else {
        var si := Supplied(init);
        var su := Supplied(updates);
        assert su == si + (if updates[n].arg.Defined? then [(updates[n].key, updates[n].arg.v)] else []);
        assert forall j :: 0 <= j < |si| ==> su[j] == si[j];
        assert Lookup(updates, key) == Lookup(init, key);
        if Lookup(init, key).Defined? {
          var j :| 0 <= j < |si| && si[j].0 == key;
          assert su[j].0 == key;
        }
        forall j | 0 <= j < |su| && su[j].0 == key ensures j < |si| && si[j] == su[j] {
          if j >= |si| { assert false; }
        }
      }
    }
  }

  /** Distinct placeholder numbers give distinct placeholders, so `$(n+1)` binds only the id. */
  lemma PlaceholderInjective(i: nat, j: nat)
    requires Placeholder(i) == Placeholder(j)
    ensures i == j
  {
    assert Placeholder(i)[1..] == Dec(i);
    assert Placeholder(j)[1..] == Dec(j);
    DecInjective(i, j);
  }

  /** The statement text `UPDATE <table> SET <fields> WHERE <idCol> = $<n+1><tail>`. */
  function UpdateStatement(table: string, fields: seq<string>, idCol: Column, paramCount: nat, tail: string): string {
    "UPDATE " + table + " SET " + Join(fields, ", ") + " WHERE " + ArgName(idCol) + " = " + Placeholder(paramCount) + tail
  }

  /** `UPDATE <table> SET <fragments> WHERE <idCol> = $<n+1><tail>` with the supplied
      values followed by the id (`values.push(id)`); `extra` holds fragments without
      a parameter appended after the supplied ones. */
  function SparseUpdate(table: string, idCol: Column, s: seq<(Column, Value)>, extra: seq<string>,
                        tail: string, id: nat): Query {
    Query(UpdateStatement(table, Fragments(s) + extra, idCol, |s| + 1, tail), Params(s) + [Int(id)])
  }

  /** The k-th supplied column is bound at `$(k+1)` to its own value, and the id is
      bound at `$(n+1)`, a placeholder no fragment uses. */
  lemma SparseUpdateBinding(table: string, idCol: Column, s: seq<(Column, Value)>, extra: seq<string>,
                            tail: string, id: nat)
    ensures var q := SparseUpdate(table, idCol, s, extra, tail, id);
      |q.params| == |s| + 1 && q.params[|s|] == Int(id) &&
      forall k :: 0 <= k < |s| ==>
        Fragments(s)[k] == ArgName(s[k].0) + " = " + Placeholder(k + 1) && q.params[k] == s[k].1 &&
        Placeholder(k + 1) != Placeholder(|s| + 1)
  {
    forall k | 1 <= k <= |s| ensures Placeholder(k) != Placeholder(|s| + 1) {
      if Placeholder(k) == Placeholder(|s| + 1) {
        PlaceholderInjective(k, |s| + 1);
      }
    }
  }

  /** What Postgres does with the SET list: each column takes its value. */
  function ApplySet(row: Row, s: seq<(Column, Value)>): (r: Row)
    ensures r.Keys == row.Keys + set j | 0 <= j < |s| :: s[j].0
  {
    if s == [] then row
    else
      var n := |s| - 1;
      assert (set j | 0 <= j < |s| :: s[j].0) == (set j | 0 <= j < n :: s[..n][j].0) + {s[n].0};
      ApplySet(row, s[..n])[s[n].0 := s[n].1]
  }

  predicate DistinctColumns(s: seq<(Column, Value)>) {
    forall i, j :: 0 <= i < j < |s| ==> s[i].0 != s[j].0
  }

  /** After the UPDATE each assigned column holds its value and every other column is unchanged. */
  lemma {:induction false} ApplySetEffect(row: Row, s: seq<(Column, Value)>, c: Column)
    requires DistinctColumns(s)
    ensures forall j :: 0 <= j < |s| && s[j].0 == c ==> ApplySet(row, s)[c] == s[j].1
    ensures (forall j :: 0 <= j < |s| ==> s[j].0 != c) ==>
      (c in ApplySet(row, s) <==> c in row) && (c in row ==> ApplySet(row, s)[c] == row[c])
  {
    if s != [] {
      var n := |s| - 1;
      var p := s[..n];
      assert DistinctColumns(p);
      ApplySetEffect(row, p, c);
      assert ApplySet(row, s) == ApplySet(row, p)[s[n].0 := s[n].1];
      forall j | 0 <= j < n && s[j].0 == c ensures ApplySet(row, s)[c] == s[j].1 {
        assert p[j] == s[j];
      }
    }
  }

  /** The supplied properties of an object with distinct keys name distinct columns. */
  lemma {:induction false} SuppliedDistinct(updates: seq<Binding>)
    requires DistinctKeys(updates)
    ensures DistinctColumns(Supplied(updates))
  {
    if updates != [] {
      var n := |updates| - 1;
      assert DistinctKeys(updates[..n]);
      SuppliedDistinct(updates[..n]);
      var si := Supplied(updates[..n]);
      forall j | 0 <= j < |si| ensures si[j].0 != updates[n].key {
        var k := si[j].0;
        assert k in Keys(updates[..n]);
        var i :| 0 <= i < n && updates[..n][i].key == k;
        assert updates[i].key == k;
      }
    }
  }

  /** `UPDATE ... WHERE id = $n` on a table: the row, if present, gets the SET list. */
  function UpdateRow(t: Table, id: nat, s: seq<(Column, Value)>): (r: Table)
    ensures r.Keys == t.Keys
    ensures forall k :: k in t && k != id ==> r[k] == t[k]
  {
    if id in t then t[id := ApplySet(t[id], s)] else t
  }

  /** A column projection `SELECT c1, c2, ...` of a row. */
  function Project(row: Row, cols: set<Column>): (r: Row)
    ensures r.Keys == row.Keys * cols
  {
    map c | c in row && c in cols :: row[c]
  }

  /** `SELECT MAX(id)`: the largest key of a table, 0 when it is empty. */
  method MaxKey(t: Table) returns (m: nat)
    ensures forall k :: k in t ==> k <= m
    ensures t != map[] ==> m in t
  {
    m := 0;
    var rest := t.Keys;
    while rest != {}
      invariant rest <= t.Keys
      invariant forall k :: k in t && k !in rest ==> k <= m
      invariant (t.Keys - rest != {}) ==> m in t
      invariant t.Keys - rest == {} ==> m == 0
      decreases rest
    {
      var k :| k in rest;
      if m < k || m == 0 { m := k; }
      rest := rest - {k};
    }
  }
}
