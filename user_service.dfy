/** The YapPerce user service: registration, login, profile updates and deletion
    against the MySQL `users` table. The bcrypt hash is a parameter (the hash it
    produced) and so is `bcrypt.compare`; JWT signing is not modelled. */
module UserService {
  import opened Wrappers
  import opened Text

  const EmailTaken: string := "Email already registered"
  const BadCredentials: string := "Invalid email or password"
  const UserNotFound: string := "User not found"
  const NothingToUpdate: string := "No fields to update"
  const RegistrationError: string := "Registration error: "
  const LoginError: string := "Login error: "
  const UpdateError: string := "Update error: "

  /** A row of `users`; `phone` and `address` may be NULL. */
  datatype User = User(userId: nat, name: string, email: string, phone: Option<string>,
                       address: Option<string>, password: string)

  /** A user as the service returns it: every column but the password. */
  datatype Profile = Profile(userId: nat, name: string, email: string, phone: Option<string>, address: Option<string>)

  function ProfileOf(u: User): Profile {
    Profile(u.userId, u.name, u.email, u.phone, u.address)
  }

  class UserDb {
    var users: map<nat, User>
    var nextUserId: nat

    ghost predicate Valid() reads this {
      forall k :: k in users ==> k < nextUserId && users[k].userId == k
    }

    constructor ()
      ensures Valid() && users == map[] && nextUserId == 1
    {
      users, nextUserId := map[], 1;
    }

    /** `INSERT INTO users (name, email, phone, address, password)`. */
    method InsertUser(name: string, email: string, phone: Option<string>, address: Option<string>, password: string)
      returns (id: nat)
      requires Valid()
      modifies this`users, this`nextUserId
      ensures Valid()
      ensures id == old(nextUserId) && id !in old(users) && nextUserId == id + 1
      ensures users == old(users)[id := User(id, name, email, phone, address, password)]
    {
      id := nextUserId;
      users := users[id := User(id, name, email, phone, address, password)];
      nextUserId := id + 1;
    }
  }

  /** `SELECT * FROM users WHERE email = ?` finds row `k`. */
  predicate HasEmail(users: map<nat, User>, k: nat, email: string) {
    k in users && users[k].email == email
  }

  /** `value || null` for an optional string argument. */
  function OrNull(s: Option<string>): (r: Option<string>)
    ensures r.None? <==> s.None? || s.value == ""
    ensures r.Some? ==> r == s
  {
    if s.Some? && s.value != "" then s else None
  }

  /** A stored optional column is never the empty string, a non-empty value is kept
      as given, and normalising a stored value again changes nothing. */
  lemma OrNullStored(s: Option<string>)
    ensures OrNull(s) != Some("")
    ensures s.Some? && s.value != "" ==> OrNull(s) == s
    ensures OrNull(OrNull(s)) == OrNull(s)
  {
  }

  /** The `RegisterInput`; `phone` and `address` are optional. */
  datatype Registration = Registration(name: string, email: string, phone: Option<string>,
                                       address: Option<string>, password: string)

  /** `registerUser`: refused when the email is registered, writing nothing;
      otherwise one user with the hashed password and an empty or absent phone or
      address stored as NULL, returned without the password. */
  method RegisterUser(db: UserDb, input: Registration, hash: string) returns (r: Result<Profile>)
    requires db.Valid()
    modifies db`users, db`nextUserId
    ensures db.Valid()
    ensures (exists k :: HasEmail(old(db.users), k, input.email)) ==>
      r == Err(RegistrationError + EmailTaken) && db.users == old(db.users) && db.nextUserId == old(db.nextUserId)
    ensures (forall k :: !HasEmail(old(db.users), k, input.email)) ==> db.nextUserId == old(db.nextUserId) + 1
    ensures (forall k :: !HasEmail(old(db.users), k, input.email)) ==>
      var id := old(db.nextUserId);
      db.users == old(db.users)[id := User(id, input.name, input.email, OrNull(input.phone),
                                            OrNull(input.address), hash)] &&
      r == Ok(ProfileOf(db.users[id]))
  {
    if exists k :: k in db.users && db.users[k].email == input.email {
      ghost var k :| k in db.users && db.users[k].email == input.email;
      assert HasEmail(db.users, k, input.email);
      return Err(RegistrationError + EmailTaken);
    }
    var id := db.InsertUser(input.name, input.email, OrNull(input.phone), OrNull(input.address), hash);
    r := Ok(ProfileOf(db.users[id]));
  }

  /** `login`: the first user with the email (the query has no ORDER BY, so any of
      them) must match the password. Both failures give the same message. */
  method Login(db: UserDb, email: string, password: string, matches: (string, string) -> bool)
    returns (r: Result<Profile>)
    ensures r.Err? ==> r.msg == LoginError + BadCredentials
    ensures (forall k :: !HasEmail(db.users, k, email)) ==> r.Err?
    ensures (forall k :: HasEmail(db.users, k, email) ==> !matches(password, db.users[k].password)) ==> r.Err?
    ensures ((exists k :: HasEmail(db.users, k, email)) &&
             (forall k :: HasEmail(db.users, k, email) ==> matches(password, db.users[k].password)))
            ==> r.Ok?
    ensures r.Ok? ==> exists k :: (HasEmail(db.users, k, email) && matches(password, db.users[k].password) &&
      r.value == ProfileOf(db.users[k]))
  {
    if !exists k :: k in db.users && db.users[k].email == email {
      return Err(LoginError + BadCredentials);
    }
    var k :| k in db.users && db.users[k].email == email;
    assert HasEmail(db.users, k, email);
    var user := db.users[k];
    if !matches(password, user.password) {
      return Err(LoginError + BadCredentials);
    }
    r := Ok(ProfileOf(user));
  }

  // ---- updateUser ------------------------------------------------------------

  /** A GraphQL argument: not given, given as null, or given as a string. */
  datatype Field = Absent | Null | Text(s: string)

  predicate FieldTruthy(f: Field) {
    f.Text? && f.s != ""
  }

  /** The `UpdateUserInput`. */
  datatype UserUpdate = UserUpdate(name: Field, email: Field, phone: Field, address: Field, password: Field)

  /** The columns `updateUser` may set, in the order it considers them. */
  datatype UserColumn = NameColumn | EmailColumn | PhoneColumn | AddressColumn | PasswordColumn

  function ColumnName(c: UserColumn): string {
    match c
    case NameColumn => "name"
    case EmailColumn => "email"
    case PhoneColumn => "phone"
    case AddressColumn => "address"
    case PasswordColumn => "password"
  }

  function Rank(c: UserColumn): nat {
    match c
    case NameColumn => 0
    case EmailColumn => 1
    case PhoneColumn => 2
    case AddressColumn => 3
    case PasswordColumn => 4
  }

  /** A bound `?`: a string, NULL, or the user id. */
  datatype Param = PText(s: string) | PNull | PId(n: nat)

  function FieldParam(f: Field): Param {
    if f.Text? then PText(f.s) else PNull
  }

  /** What `updateUser` assigns to a column, if anything: name and email when
      truthy, phone and address whenever given (null and "" included), the hashed
      password when a truthy one is given. */
  function Candidate(c: UserColumn, input: UserUpdate, hash: string): Option<Param> {
    match c
    case NameColumn => if FieldTruthy(input.name) then Some(PText(input.name.s)) else None
    case EmailColumn => if FieldTruthy(input.email) then Some(PText(input.email.s)) else None
    case PhoneColumn => if input.phone != Absent then Some(FieldParam(input.phone)) else None
    case AddressColumn => if input.address != Absent then Some(FieldParam(input.address)) else None
    case PasswordColumn => if FieldTruthy(input.password) then Some(PText(hash)) else None
  }

  /** The columns in the order the resolver considers them. */
  const Columns: seq<UserColumn> := [NameColumn, EmailColumn, PhoneColumn, AddressColumn, PasswordColumn]

  function Piece(c: UserColumn, input: UserUpdate, hash: string): seq<(UserColumn, Param)> {
    if Candidate(c, input, hash).Some? then [(c, Candidate(c, input, hash).value)] else []
  }

  /** The assignments of the columns `cs`, in their order. */
  function Collect(cs: seq<UserColumn>, input: UserUpdate, hash: string): seq<(UserColumn, Param)> {
    if cs == [] then [] else Piece(cs[0], input, hash) + Collect(cs[1..], input, hash)
  }

  /** The SET list `updateUser` builds. */
  function Assignments(input: UserUpdate, hash: string): seq<(UserColumn, Param)> {
    Collect(Columns, input, hash)
  }

  predicate Increasing(cs: seq<UserColumn>) {
    forall i, j :: 0 <= i < j < |cs| ==> Rank(cs[i]) < Rank(cs[j])
  }

  /** The assignments' columns come in the resolver's order, each at most once. */
  predicate InOrder(a: seq<(UserColumn, Param)>) {
    forall i, j :: 0 <= i < j < |a| ==> Rank(a[i].0) < Rank(a[j].0)
  }

  /** Collecting holds exactly the candidates of the columns. */
  lemma {:induction false} CollectMembers(cs: seq<UserColumn>, input: UserUpdate, hash: string)
    ensures forall x :: x in Collect(cs, input, hash) <==> x.0 in cs && Candidate(x.0, input, hash) == Some(x.1)
  {
    if cs != [] {
      CollectMembers(cs[1..], input, hash);
      assert cs == [cs[0]] + cs[1..];
    }
  }

  /** Collecting keeps the columns' order. */
  lemma {:induction false} CollectOrdered(cs: seq<UserColumn>, input: UserUpdate, hash: string)
    requires Increasing(cs)
    ensures InOrder(Collect(cs, input, hash))
  {
    if cs != [] {
      CollectOrdered(cs[1..], input, hash);
      CollectMembers(cs[1..], input, hash);
      var a := Collect(cs, input, hash);
      var p := Piece(cs[0], input, hash);
      var rest := Collect(cs[1..], input, hash);
      assert a == p + rest;
      forall i, j | 0 <= i < j < |a| ensures Rank(a[i].0) < Rank(a[j].0) {
        if i < |p| {
          assert a[i] == p[0] && a[i].0 == cs[0];
          assert a[j] == rest[j - |p|];
          assert a[j] in rest;
          var m :| 0 <= m < |cs[1..]| && cs[1..][m] == a[j].0;
          assert cs[m + 1] == a[j].0;
          assert Rank(cs[0]) < Rank(cs[m + 1]);
        } else {
          assert a[i] == rest[i - |p|] && a[j] == rest[j - |p|];
          assert Rank(rest[i - |p|].0) < Rank(rest[j - |p|].0);
        }
      }
    }
  }

  /** The SET list holds exactly one assignment per column with a candidate, in the
      order name, email, phone, address, password. */
  lemma AssignmentsRules(input: UserUpdate, hash: string)
    ensures InOrder(Assignments(input, hash))
    ensures forall x :: x in Assignments(input, hash) <==> Candidate(x.0, input, hash) == Some(x.1)
  {
    CollectMembers(Columns, input, hash);
    CollectOrdered(Columns, input, hash);
    forall c: UserColumn ensures c in Columns {
      match c
      case NameColumn => assert Columns[0] == c;
      case EmailColumn => assert Columns[1] == c;
      case PhoneColumn => assert Columns[2] == c;
      case AddressColumn => assert Columns[3] == c;
      case PasswordColumn => assert Columns[4] == c;
    }
  }

  /** Nothing is assigned exactly when no argument qualifies. */
  lemma AssignmentsEmpty(input: UserUpdate, hash: string)
    ensures Assignments(input, hash) == [] <==>
      !FieldTruthy(input.name) && !FieldTruthy(input.email) && input.phone == Absent &&
      input.address == Absent && !FieldTruthy(input.password)
  {
    AssignmentsUnfold(input, hash);
  }

  /** An empty name is ignored, while an empty phone clears it to "" and a null
      address to NULL. */
  lemma EmptyValuesDiffer(hash: string)
    ensures Assignments(UserUpdate(Text(""), Absent, Text(""), Null, Absent), hash) ==
      [(PhoneColumn, PText("")), (AddressColumn, PNull)]
  {
    AssignmentsUnfold(UserUpdate(Text(""), Absent, Text(""), Null, Absent), hash);
  }

  /** `updates.map(col => col + ' = ?')`. */
  function SetList(a: seq<(UserColumn, Param)>): (r: seq<string>)
    ensures |r| == |a|
    ensures forall i :: 0 <= i < |a| ==> r[i] == ColumnName(a[i].0) + " = ?"
  {
    seq(|a|, i requires 0 <= i < |a| => ColumnName(a[i].0) + " = ?")
  }

  function UpdateText(a: seq<(UserColumn, Param)>): string {
    "UPDATE users SET " + Join(SetList(a), ", ") + " WHERE user_id = ?"
  }

  function ParamsOf(a: seq<(UserColumn, Param)>): (r: seq<Param>)
    ensures |r| == |a|
    ensures forall i :: 0 <= i < |a| ==> r[i] == a[i].1
  {
    seq(|a|, i requires 0 <= i < |a| => a[i].1)
  }

  /** The statement sent: one `?` per assignment, then the id. */
  datatype Statement = Statement(text: string, params: seq<Param>)

  /** The first value the list assigns to column `c`. */
  function ValueFor(a: seq<(UserColumn, Param)>, c: UserColumn): Option<Param> {
    if a == [] then None else if a[0].0 == c then Some(a[0].1) else ValueFor(a[1..], c)
  }

  function TextOr(v: Option<Param>, keep: string): string {
    if v.Some? && v.value.PText? then v.value.s else keep
  }

  function NullableOr(v: Option<Param>, keep: Option<string>): Option<string> {
    if v.None? then keep else if v.value.PText? then Some(v.value.s) else None
  }

  /** The user after the SET list: each assigned column takes its value. */
  function Assigned(u: User, a: seq<(UserColumn, Param)>): User {
    u.(name := TextOr(ValueFor(a, NameColumn), u.name), email := TextOr(ValueFor(a, EmailColumn), u.email),
       phone := NullableOr(ValueFor(a, PhoneColumn), u.phone),
       address := NullableOr(ValueFor(a, AddressColumn), u.address),
       password := TextOr(ValueFor(a, PasswordColumn), u.password))
  }

  lemma {:induction false} ValueForCollect(cs: seq<UserColumn>, input: UserUpdate, hash: string, c: UserColumn)
    requires Increasing(cs)
    ensures ValueFor(Collect(cs, input, hash), c) == if c in cs then Candidate(c, input, hash) else None
  {
    if cs != [] {
      ValueForCollect(cs[1..], input, hash, c);
      var p := Piece(cs[0], input, hash);
      var rest := Collect(cs[1..], input, hash);
      if p != [] {
        assert (p + rest)[1..] == rest;
      } else {
        assert p + rest == rest;
      }
    }
  }

  /** The UPDATE sets the given name and email only when truthy, the phone and
      address whenever given (to NULL when given as null), the new hash only for a
      truthy password; every other column and the id stay. */
  lemma AssignedEffect(u: User, input: UserUpdate, hash: string)
    ensures var n := Assigned(u, Assignments(input, hash));
      n.userId == u.userId &&
      n.name == (if FieldTruthy(input.name) then input.name.s else u.name) &&
      n.email == (if FieldTruthy(input.email) then input.email.s else u.email) &&
      n.phone == (if input.phone.Text? then Some(input.phone.s) else if input.phone == Null then None else u.phone) &&
      n.address == (if input.address.Text? then Some(input.address.s) else if input.address == Null then None else u.address) &&
      n.password == (if FieldTruthy(input.password) then hash else u.password)
  {
    ValueForCollect(Columns, input, hash, NameColumn);
    ValueForCollect(Columns, input, hash, EmailColumn);
    ValueForCollect(Columns, input, hash, PhoneColumn);
    ValueForCollect(Columns, input, hash, AddressColumn);
    ValueForCollect(Columns, input, hash, PasswordColumn);
  }

  lemma AssignmentsUnfold(input: UserUpdate, hash: string)
    ensures Assignments(input, hash) ==
      Piece(NameColumn, input, hash) + Piece(EmailColumn, input, hash) + Piece(PhoneColumn, input, hash) +
      Piece(AddressColumn, input, hash) + Piece(PasswordColumn, input, hash)
  {
    var cs := Columns;
    assert cs[1..] == [EmailColumn, PhoneColumn, AddressColumn, PasswordColumn];
    assert cs[1..][1..] == [PhoneColumn, AddressColumn, PasswordColumn];
    assert cs[1..][1..][1..] == [AddressColumn, PasswordColumn];
    assert cs[1..][1..][1..][1..] == [PasswordColumn];
    assert Collect(cs[1..][1..][1..][1..], input, hash) == Piece(PasswordColumn, input, hash) + Collect([], input, hash);
    assert Collect(cs[1..][1..][1..], input, hash) ==
      Piece(AddressColumn, input, hash) + Piece(PasswordColumn, input, hash);
    assert Collect(cs[1..][1..], input, hash) ==
      Piece(PhoneColumn, input, hash) + Piece(AddressColumn, input, hash) + Piece(PasswordColumn, input, hash);
    assert Collect(cs[1..], input, hash) ==
      Piece(EmailColumn, input, hash) + Piece(PhoneColumn, input, hash) + Piece(AddressColumn, input, hash) +
      Piece(PasswordColumn, input, hash);
  }

  /** `updateUser`. An unknown id fails before any check of the input, and an input
      with nothing to set fails with "No fields to update"; neither writes. Otherwise
      one UPDATE sets the assignments in order, the id bound last, and the updated
      profile is returned. `hash` is what bcrypt made of the new password. */
  method UpdateUser(db: UserDb, id: nat, input: UserUpdate, hash: string)
    returns (r: Result<Profile>, issued: Option<Statement>)
    requires db.Valid()
    modifies db`users
    ensures db.Valid()
    ensures id !in old(db.users) ==>
      r == Err(UpdateError + UserNotFound) && issued == None && db.users == old(db.users)
    ensures id in old(db.users) && Assignments(input, hash) == [] ==>
      r == Err(UpdateError + NothingToUpdate) && issued == None && db.users == old(db.users)
    ensures id in old(db.users) && Assignments(input, hash) != [] ==>
      var a := Assignments(input, hash);
      issued == Some(Statement(UpdateText(a), ParamsOf(a) + [PId(id)])) &&
      db.users == old(db.users)[id := Assigned(old(db.users)[id], a)] &&
      r == Ok(ProfileOf(db.users[id]))
  {
    issued := None;
    if id !in db.users {
      return Err(UpdateError + UserNotFound), issued;
    }
    var updates: seq<(UserColumn, Param)> := [];
    if FieldTruthy(input.name) {
      updates := updates + [(NameColumn, PText(input.name.s))];
    }
    assert updates == Piece(NameColumn, input, hash);
    if FieldTruthy(input.email) {
      updates := updates + [(EmailColumn, PText(input.email.s))];
    }
    assert updates == Piece(NameColumn, input, hash) + Piece(EmailColumn, input, hash);
    if input.phone != Absent {
      updates := updates + [(PhoneColumn, FieldParam(input.phone))];
    }
    assert updates == Piece(NameColumn, input, hash) + Piece(EmailColumn, input, hash) + Piece(PhoneColumn, input, hash);
    if input.address != Absent {
      updates := updates + [(AddressColumn, FieldParam(input.address))];
    }
    assert updates == Piece(NameColumn, input, hash) + Piece(EmailColumn, input, hash) + Piece(PhoneColumn, input, hash) +
      Piece(AddressColumn, input, hash);
    if FieldTruthy(input.password) {
      updates := updates + [(PasswordColumn, PText(hash))];
    }
    AssignmentsUnfold(input, hash);
    assert updates == Assignments(input, hash);
    if |updates| == 0 {
      return Err(UpdateError + NothingToUpdate), issued;
    }
    issued := Some(Statement(UpdateText(updates), ParamsOf(updates) + [PId(id)]));
    db.users := db.users[id := Assigned(db.users[id], updates)];
    r := Ok(ProfileOf(db.users[id]));
  }

  /** `deleteUser`: true exactly when a row was removed (`affectedRows > 0`). */
  method DeleteUser(db: UserDb, id: nat) returns (removed: bool)
    requires db.Valid()
    modifies db`users
    ensures db.Valid()
    ensures removed <==> id in old(db.users)
    ensures db.users == old(db.users) - {id}
  {
    var affectedRows := if id in db.users then 1 else 0;
    db.users := db.users - {id};
    removed := affectedRows > 0;
  }
}
