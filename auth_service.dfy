/** The ShipXpress auth service: registration, login, profile updates and password
    changes against the users table. `bcrypt.hash` is replaced by the hash it
    produced (a parameter) and `bcrypt.compare` by a parameter; JWT signing is not
    modelled. */
module AuthService {
  import opened Wrappers
  import opened Sql
  import opened ShipXpressDb

  const UserExists: string := "User with this email or username already exists"
  const BadCredentials: string := "Invalid email or password"
  const UserNotFound: string := "User not found"
  const BadOldPassword: string := "Invalid old password"
  const TouchUpdatedAt: string := "updated_at = CURRENT_TIMESTAMP"
  const ReturningPublic: string := " RETURNING user_id, username, email, role, full_name, created_at, updated_at"

  /** The columns the service ever returns: everything but the password hash. */
  const PublicColumns: set<Column> := {UserId, Username, Email, Role, FullName, CreatedAt, UpdatedAt}

  /** A row as `RETURNING user_id, username, email, role, full_name, created_at, updated_at` shows it. */
  function Public(row: Row): (r: Row)
    ensures PasswordHash !in r
    ensures forall c :: c in r <==> c in row && c in PublicColumns
    ensures forall c :: c in r ==> r[c] == row[c]
  {
    Project(row, PublicColumns)
  }

  /** `SELECT user_id FROM users WHERE email = $1 OR username = $2` finds a row. */
  predicate Taken(users: Table, email: string, username: string) {
    exists k :: k in users && (Get(users[k], Email) == Str(email) || Get(users[k], Username) == Str(username))
  }

  /** The arguments of `register`; `role` may be left out, `fullName` is `Null` when not given. */
  datatype Registration = Registration(username: string, email: string, fullName: Value, role: Arg)

  /** The destructuring default `role = 'user'` applies only to an absent role. */
  function RoleOf(role: Arg): (r: Value)
    ensures role.Undefined? ==> r == Str("user")
    ensures role.Defined? ==> r == role.v
  {
    if role.Undefined? then Str("user") else role.v
  }

  /** The default applies to an absent role only: the stored role is "user" exactly
      when no role or "user" was given, and a role given as null is stored as null. */
  lemma RoleDefaultOnlyWhenAbsent(role: Arg)
    ensures RoleOf(role) == Str("user") <==> role == Undefined || role == Defined(Str("user"))
    ensures RoleOf(role) == Null <==> role == Defined(Null)
  {
  }

  function UserRow(args: Registration, passwordHash: string, now: int): Row {
    map[Username := Str(args.username), Email := Str(args.email), PasswordHash := Str(passwordHash),
        FullName := Or(args.fullName, Null), Role := RoleOf(args.role), CreatedAt := Int(now), UpdatedAt := Int(now)]
  }

  /** `register`: refused when the email or the username is taken, with nothing
      inserted; otherwise one user with the hashed password, `full_name || null` and
      the role (default "user"), answered without the hash. */
  method Register(db: Database, args: Registration, passwordHash: string, now: int) returns (r: Result<Row>)
    requires db.Valid()
    modifies db`users, db`nextUserId
    ensures db.Valid()
    ensures Taken(old(db.users), args.email, args.username) ==>
      r == Err(UserExists) && db.users == old(db.users) && db.nextUserId == old(db.nextUserId)
    ensures !Taken(old(db.users), args.email, args.username) ==> db.nextUserId == old(db.nextUserId) + 1
    ensures !Taken(old(db.users), args.email, args.username) ==>
      var id := old(db.nextUserId);
      db.users == old(db.users)[id := UserRow(args, passwordHash, now)[UserId := Int(id)]] &&
      r == Ok(Public(db.users[id]))
  {
    if exists k :: k in db.users &&
        (Get(db.users[k], Email) == Str(args.email) || Get(db.users[k], Username) == Str(args.username)) {
      return Err(UserExists);
    }
    var id := db.InsertUser(UserRow(args, passwordHash, now));
    r := Ok(Public(db.users[id]));
  }

  /** A registered user has the given role, or "user" when none was given, and a
      full name that is null exactly when none (or an empty one) was given. */
  lemma RegisteredDefaults(args: Registration, passwordHash: string, now: int)
    ensures UserRow(args, passwordHash, now)[Role] == (if args.role.Undefined? then Str("user") else args.role.v)
    ensures UserRow(args, passwordHash, now)[FullName] == Null <==> !Truthy(args.fullName)
  {
  }

  /** Users with this email. */
  predicate HasEmail(users: Table, k: nat, email: string) {
    k in users && Get(users[k], Email) == Str(email)
  }

  /** `login`: the first user with the email (the query has no ORDER BY, so any of
      them) must match the password. Both failures give the same message, and the
      answer never holds the hash. */
  method Login(db: Database, email: string, password: string, matches: (string, Value) -> bool)
    returns (r: Result<Row>)
    ensures r.Err? ==> r.msg == BadCredentials
    ensures (forall k :: !HasEmail(db.users, k, email)) ==> r.Err?
    ensures (forall k :: HasEmail(db.users, k, email) ==> !matches(password, Get(db.users[k], PasswordHash))) ==> r.Err?
    ensures ((exists k :: HasEmail(db.users, k, email)) &&
             (forall k :: HasEmail(db.users, k, email) ==> matches(password, Get(db.users[k], PasswordHash))))
            ==> r.Ok?
    ensures r.Ok? ==> exists k :: (HasEmail(db.users, k, email) &&
      matches(password, Get(db.users[k], PasswordHash)) && r.value == Public(db.users[k]))
    ensures r.Ok? ==> PasswordHash !in r.value
  {
    if !exists k :: k in db.users && Get(db.users[k], Email) == Str(email) {
      return Err(BadCredentials);
    }
    var k :| k in db.users && Get(db.users[k], Email) == Str(email);
    assert HasEmail(db.users, k, email);
    var user := db.users[k];
    if !matches(password, Get(user, PasswordHash)) {
      return Err(BadCredentials);
    }
    r := Ok(Public(user));
  }

  /** With emails unique (as `register` keeps them), login succeeds exactly when
      the user holding the email matches the password. */
  lemma LoginUnique(users: Table, email: string, k: nat, password: string, matches: (string, Value) -> bool)
    requires HasEmail(users, k, email)
    requires forall j :: HasEmail(users, j, email) ==> j == k
    ensures (exists j :: HasEmail(users, j, email) && matches(password, Get(users[j], PasswordHash))) <==>
      matches(password, Get(users[k], PasswordHash))
  {
  }

  /** The statement `updateUser` sends: none when no argument is supplied, else the
      SET list of the supplied columns followed by `updated_at = CURRENT_TIMESTAMP`. */
  method BuildUserUpdate(updates: seq<Binding>, id: nat) returns (issued: Option<Query>)
    ensures Supplied(updates) == [] ==> issued == None
    ensures Supplied(updates) != [] ==>
      issued == Some(SparseUpdate("users", UserId, Supplied(updates), [TouchUpdatedAt], ReturningPublic, id))
  {
    var fields, values, paramCount := BuildSetList(updates);
    if |fields| == 0 {
      return None;
    }
    ghost var s := Supplied(updates);
    fields := fields + [TouchUpdatedAt];
    assert fields == Fragments(s) + [TouchUpdatedAt] && paramCount == |s| + 1;
    issued := Some(Query(UpdateStatement("users", fields, UserId, paramCount, ReturningPublic),
                         values + [Int(id)]));
  }

  /** `updateUser`: with no supplied argument the public row is read back, nothing
      written; otherwise the supplied columns are set and `updated_at` is stamped. */
  method UpdateUser(db: Database, id: nat, updates: seq<Binding>, now: int)
    returns (r: Option<Row>, issued: Option<Query>)
    requires db.Valid()
    modifies db`users
    ensures db.Valid()
    ensures Supplied(updates) == [] ==> issued == None && db.users == old(db.users)
    ensures Supplied(updates) != [] ==>
      issued == Some(SparseUpdate("users", UserId, Supplied(updates), [TouchUpdatedAt], ReturningPublic, id)) &&
      db.users == UpdateRow(old(db.users), id, Supplied(updates) + [(UpdatedAt, Int(now))])
    ensures r.Some? <==> id in old(db.users)
    ensures r.Some? ==> r.value == Public(db.users[id])
  {
    issued := BuildUserUpdate(updates, id);
    if issued.Some? {
      db.users := UpdateRow(db.users, id, Supplied(updates) + [(UpdatedAt, Int(now))]);
    }
    r := if id in db.users then Some(Public(db.users[id])) else None;
  }

  /** `changePassword`: an unknown id and a wrong old password fail, writing
      nothing; otherwise only the hash and `updated_at` of that user change. */
  method ChangePassword(db: Database, id: nat, oldPassword: string, newHash: string,
                        matches: (string, Value) -> bool, now: int)
    returns (r: Result<bool>)
    requires db.Valid()
    modifies db`users
    ensures db.Valid()
    ensures id !in old(db.users) ==> r == Err(UserNotFound) && db.users == old(db.users)
    ensures id in old(db.users) && !matches(oldPassword, Get(old(db.users)[id], PasswordHash)) ==>
      r == Err(BadOldPassword) && db.users == old(db.users)
    ensures id in old(db.users) && matches(oldPassword, Get(old(db.users)[id], PasswordHash)) ==>
      r == Ok(true) &&
      db.users == old(db.users)[id := old(db.users)[id][PasswordHash := Str(newHash)][UpdatedAt := Int(now)]]
  {
    if id !in db.users {
      return Err(UserNotFound);
    }
    var user := db.users[id];
    if !matches(oldPassword, Get(user, PasswordHash)) {
      return Err(BadOldPassword);
    }
    db.users := db.users[id := user[PasswordHash := Str(newHash)][UpdatedAt := Int(now)]];
    r := Ok(true);
  }

  /** `deleteUser`: true exactly when a row was removed. */
  method DeleteUser(db: Database, id: nat) returns (removed: bool)
    requires db.Valid()
    modifies db`users
    ensures db.Valid()
    ensures removed <==> id in old(db.users)
    ensures db.users == old(db.users) - {id}
  {
    removed := id in db.users;
    db.users := Deleted(db.users, id).0;
  }
}
