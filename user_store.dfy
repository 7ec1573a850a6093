/**
 * The user and provider-identity store: the queries and updates of the
 * users and user_provider_identities tables. Each query is a function on the
 * table; each update has an effect function giving its result and the new
 * table, and a method on the database that performs the same steps as the
 * store does and is proved to have exactly that effect.
 */
module UserStore {
  import opened Wrappers
  import opened Text
  import opened DbUtils
  import opened Tables

  /** The fields of a user record that CreateUser inserts. */
  datatype NewUser = NewUser(
    username: string,
    email: SqlNullString,
    displayName: SqlNullString,
    avatarUrl: SqlNullString,
    avatarSource: SqlNullString,
    statsPrivacy: string)

  /** The fields of an identity record that CreateUserProviderIdentity inserts. */
  datatype NewIdentity = NewIdentity(
    userId: string,
    providerName: string,
    providerUserId: string,
    providerEmail: SqlNullString,
    providerDisplayName: SqlNullString,
    providerAvatarUrl: SqlNullString)

  /** The user record an OAuth provider reports after authentication. */
  datatype GothUser = GothUser(
    provider: string,
    userId: string,
    email: string,
    name: string,
    nickName: string,
    avatarUrl: string)

  const DefaultStatsPrivacy := "public"
  const MsgEmptyUsername := "username cannot be empty"

  const UserConstraints: map<string, Error> :=
    map["uq_users_username" := UsernameTaken, "uq_users_email" := EmailTaken]

  const IdentityConstraints: map<string, Error> :=
    map["uq_user_providers_identities_provider" := ProviderIdentityConflict,
        "uq_user_providers_identities_user_provider" := ProviderIdentityConflict]

  /** The SQLSTATE of a foreign-key violation. */
  const ForeignKeyViolationCode := "23503"

  // ---------------------------------------------------------------- reading users

  /** The row `WHERE user_id = $1` returns. */
  function FindUserById(users: seq<User>, userId: string): (r: Option<User>)
    ensures r.Some? ==> r.value in users && r.value.userId == userId
    ensures r.None? <==> userId !in UserIds(users)
  {
    if users == [] then None
    else if users[0].userId == userId then Some(users[0])
    else
      assert UserIds(users) == {users[0].userId} + UserIds(users[1..]) by {
        assert users == [users[0]] + users[1..];
      }
      FindUserById(users[1..], userId)
  }

  /** The name a user is shown by: the display name when it is set and non-empty, else the username. */
  function ShownName(u: User): (name: string)
    ensures u.displayName.valid && u.displayName.str != "" ==> name == u.displayName.str
    ensures !(u.displayName.valid && u.displayName.str != "") ==> name == u.username
  {
    if u.displayName.valid && u.displayName.str != "" then u.displayName.str else u.username
  }

  predicate HasEmail(u: User, email: string) {
    u.email.valid && u.email.str == email
  }

  /** The row `WHERE email = $1` returns; a NULL e-mail never equals the parameter. */
  function FindUserByEmail(users: seq<User>, email: string): (r: Option<User>)
    ensures r.Some? ==> r.value in users && HasEmail(r.value, email)
    ensures r.None? <==> forall i :: 0 <= i < |users| ==> !HasEmail(users[i], email)
  {
    if users == [] then None
    else if HasEmail(users[0], email) then Some(users[0])
    else FindUserByEmail(users[1..], email)
  }

  function QueryUser(found: Option<User>, fault: Option<DbError>): (r: RowLookup<User>)
    ensures fault.Some? ==> r == QueryFailed(fault.value)
    ensures fault.None? ==> (r.Found? <==> found.Some?) && (r.Found? ==> r.row == found.value)
  {
    if fault.Some? then QueryFailed(fault.value)
    else if found.Some? then Found(found.value)
    else NoRows
  }

  /** The SELECT list of GetUserByID and GetUserByEmail names twelve columns, avatar_source included. */
  const UserColumnCount := 12
  /** scanUser passes eleven destinations to Scan: nothing receives avatar_source. */
  const ScanUserDestinationCount := 11
  /** The driver's complaint when Scan gets a different number of destinations than columns. */
  const ScanArityError := DriverError("sql: wrong number of Scan destinations")

  /**
   * scanUser with a given number of destinations: no row is ErrUserNotFound,
   * a query error or a destination count that differs from the column count
   * is wrapped.
   */
  function ScanUserWith(row: RowLookup<User>, destinations: nat): (r: Result<User, Error>)
    ensures r.Ok? <==> row.Found? && destinations == UserColumnCount
    ensures r.Ok? ==> r.value == row.row
    ensures row.NoRows? ==> r == Err(UserNotFound)
    ensures row.QueryFailed? ==> r == Err(Database(row.cause))
  {
    match row
    case NoRows => Err(UserNotFound)
    case QueryFailed(cause) => Err(Database(cause))
    case Found(u) => if destinations == UserColumnCount then Ok(u) else Err(Database(ScanArityError))
  }

  /** GetUserByID as written: scanUser's eleven destinations meet twelve columns. */
  function GetUserByIDAsWritten(users: seq<User>, userId: string, fault: Option<DbError>): (r: Result<User, Error>)
    ensures fault.Some? ==> r == Err(Database(fault.value))
    ensures fault.None? && userId !in UserIds(users) ==> r == Err(UserNotFound)
  {
    ScanUserWith(QueryUser(FindUserById(users, userId), fault), ScanUserDestinationCount)
  }

  /** As written, no existing user can be read back: every found row fails to scan. */
  lemma GetUserByIDAsWrittenNeverSucceeds(users: seq<User>, userId: string, fault: Option<DbError>)
    ensures GetUserByIDAsWritten(users, userId, fault).Err?
    ensures fault.None? && userId in UserIds(users) ==>
      GetUserByIDAsWritten(users, userId, fault) == Err(Database(ScanArityError))
  {
  }

  /** GetUserByID with one destination per selected column. */
  function GetUserByID(users: seq<User>, userId: string, fault: Option<DbError>): (r: Result<User, Error>)
    ensures r.Ok? <==> fault.None? && userId in UserIds(users)
    ensures r.Ok? ==> r.value in users && r.value.userId == userId
    ensures fault.None? && userId !in UserIds(users) ==> r == Err(UserNotFound)
    ensures fault.Some? ==> r == Err(Database(fault.value))
  {
    ScanUserWith(QueryUser(FindUserById(users, userId), fault), UserColumnCount)
  }

  /** GetUserByEmail with one destination per selected column. */
  function GetUserByEmail(users: seq<User>, email: string, fault: Option<DbError>): (r: Result<User, Error>)
    ensures r.Ok? <==> fault.None? && exists i :: 0 <= i < |users| && HasEmail(users[i], email)
    ensures r.Ok? ==> r.value in users && HasEmail(r.value, email)
    ensures r == Err(UserNotFound) <==> fault.None? && forall i :: 0 <= i < |users| ==> !HasEmail(users[i], email)
    ensures fault.Some? ==> r == Err(Database(fault.value))
  {
    ScanUserWith(QueryUser(FindUserByEmail(users, email), fault), UserColumnCount)
  }

  /** Under the key constraints the row found by id is the only row with that id. */
  lemma {:induction false} UserByIdIsUnique(users: seq<User>, i: int)
    requires UsersValid(users) && 0 <= i < |users|
    ensures FindUserById(users, users[i].userId) == Some(users[i])
  {
    if i > 0 {
      assert UserKeysDistinct(users[0], users[i]);
      assert users[1..][i - 1] == users[i];
      UserByIdIsUnique(users[1..], i - 1);
    }
  }

  /** Under uq_users_email the row found by e-mail is the only row with that e-mail. */
  lemma {:induction false} UserByEmailIsUnique(users: seq<User>, i: int)
    requires UsersValid(users) && 0 <= i < |users| && users[i].email.valid
    ensures FindUserByEmail(users, users[i].email.str) == Some(users[i])
  {
    if i > 0 {
      assert UserKeysDistinct(users[0], users[i]);
      assert users[1..][i - 1] == users[i];
      UserByEmailIsUnique(users[1..], i - 1);
    }
  }

  // ---------------------------------------------------------------- CreateUser

  predicate UsernameInUse(users: seq<User>, username: string)
    ensures UsernameInUse(users, username) ==> exists u :: u in users && u.username == username
  {
    exists i :: 0 <= i < |users| && users[i].username == username
  }

  predicate EmailInUse(users: seq<User>, email: SqlNullString)
    ensures !email.valid ==> !EmailInUse(users, email)
  {
    exists i :: 0 <= i < |users| && SameNonNullText(users[i].email, email)
  }

  /** The privacy CreateUser stores: an empty value becomes "public". */
  function InsertedStatsPrivacy(requested: string): (p: string)
    ensures requested == "" ==> p == DefaultStatsPrivacy
    ensures requested != "" ==> p == requested
  {
    if requested == "" then DefaultStatsPrivacy else requested
  }

  /** The row CreateUser inserts: themes unset, all three timestamps the insertion time. */
  function NewUserRow(user: NewUser, userId: string, now: int): (r: User)
    ensures r.userId == userId && r.username == user.username && r.email == user.email
    ensures r.displayName == user.displayName && r.avatarUrl == user.avatarUrl && r.avatarSource == user.avatarSource
    ensures r.statsPrivacy != "" && (user.statsPrivacy != "" ==> r.statsPrivacy == user.statsPrivacy)
    ensures !r.uiTheme.valid && !r.colorTheme.valid
    ensures r.createdAt == now && r.updatedAt == now && r.lastLoginAt == SqlNullTime(now, true)
  {
    User(userId, user.username, user.email, user.displayName, user.avatarUrl, user.avatarSource,
         InsertedStatsPrivacy(user.statsPrivacy), NullText, NullText, now, now, SqlNullTime(now, true))
  }

  /**
   * The unique constraint the insert violates. When both the username and the
   * e-mail are taken, PostgreSQL reports one of the two and which one is not
   * specified; the model takes the username's constraint.
   */
  function UserInsertViolation(users: seq<User>, user: NewUser): (r: Option<DbError>)
    ensures r.Some? <==> UsernameInUse(users, user.username) || EmailInUse(users, user.email)
    ensures r.Some? ==> r.value.PgError? && r.value.code == UniqueViolationCode && r.value.constraintName in UserConstraints
  {
    if UsernameInUse(users, user.username) then Some(PgError(UniqueViolationCode, "uq_users_username", ""))
    else if EmailInUse(users, user.email) then Some(PgError(UniqueViolationCode, "uq_users_email", ""))
    else None
  }

  /**
   * CreateUser's result and the new users table. A blank username is refused
   * before the insert; a driver failure or a constraint violation leaves the
   * table as it was.
   */
  function CreateUserEffect(users: seq<User>, user: NewUser, newUserId: string, now: int, fault: Option<DbError>)
    : (o: (Result<string, Error>, seq<User>))
    ensures IsBlank(user.username) ==> o == (Err(Failure(MsgEmptyUsername)), users)
    ensures o.0.Ok? <==>
      !IsBlank(user.username) && fault.None? && !UsernameInUse(users, user.username) && !EmailInUse(users, user.email)
    ensures o.0.Ok? ==> o.0.value == newUserId && o.1 == users + [NewUserRow(user, newUserId, now)]
    ensures o.0.Err? ==> o.1 == users
    ensures !IsBlank(user.username) && fault.None? && UsernameInUse(users, user.username) ==> o.0 == Err(UsernameTaken)
    ensures !IsBlank(user.username) && fault.None? && !UsernameInUse(users, user.username) && EmailInUse(users, user.email)
      ==> o.0 == Err(EmailTaken)
    ensures !IsBlank(user.username) && fault.Some? ==> o.0 == Err(HandlePgError(fault.value, UserConstraints).1)
  {
    TrimSpaceEmptyIffBlank(user.username);
    if TrimSpace(user.username) == "" then (Err(Failure(MsgEmptyUsername)), users)
    else if fault.Some? then (Err(HandlePgError(fault.value, UserConstraints).1), users)
    else if UsernameInUse(users, user.username) then (Err(UsernameTaken), users)
    else if EmailInUse(users, user.email) then (Err(EmailTaken), users)
    else (Ok(newUserId), users + [NewUserRow(user, newUserId, now)])
  }

  /** The violated constraint reaches the caller as the error CreateUser maps it to. */
  lemma UserViolationIsMapped(users: seq<User>, user: NewUser)
    requires UserInsertViolation(users, user).Some?
    ensures HandlePgError(UserInsertViolation(users, user).value, UserConstraints)
      == (true, if UsernameInUse(users, user.username) then UsernameTaken else EmailTaken)
  {
    assert "uq_users_username" in UserConstraints && "uq_users_email" in UserConstraints;
  }

  /** A successful insert keeps the users' key constraints and adds exactly the new id. */
  lemma CreateUserKeepsUsersValid(users: seq<User>, user: NewUser, newUserId: string, now: int, fault: Option<DbError>)
    requires UsersValid(users) && newUserId !in UserIds(users)
    ensures UsersValid(CreateUserEffect(users, user, newUserId, now, fault).1)
    ensures CreateUserEffect(users, user, newUserId, now, fault).0.Ok? ==>
      UserIds(CreateUserEffect(users, user, newUserId, now, fault).1) == UserIds(users) + {newUserId}
  {
    var o := CreateUserEffect(users, user, newUserId, now, fault);
    if o.0.Ok? {
      var row := NewUserRow(user, newUserId, now);
      forall i | 0 <= i < |users|
        ensures UserKeysDistinct(users[i], row)
      {
        assert users[i] in users;
      }
      assert o.1 == users + [row];
    }
  }

  /** Round trip: the row CreateUser inserted is what GetUserByID returns for the new id. */
  lemma CreatedUserReadsBack(users: seq<User>, user: NewUser, newUserId: string, now: int, fault: Option<DbError>)
    requires UsersValid(users) && newUserId !in UserIds(users)
    requires CreateUserEffect(users, user, newUserId, now, fault).0.Ok?
    ensures GetUserByID(CreateUserEffect(users, user, newUserId, now, fault).1, newUserId, None)
      == Ok(NewUserRow(user, newUserId, now))
    ensures NewUserRow(user, newUserId, now).statsPrivacy != ""
  {
    var o := CreateUserEffect(users, user, newUserId, now, fault);
    CreateUserKeepsUsersValid(users, user, newUserId, now, fault);
    UserByIdIsUnique(o.1, |users|);
  }

  /**
   * CreateUser. The privacy default is applied before the blank-username
   * check; neither touches the table.
   */
  method CreateUser(db: Database, user: NewUser, newUserId: string, now: int, fault: Option<DbError>)
    returns (r: Result<string, Error>)
    requires db.Valid() && newUserId !in UserIds(db.users)
    modifies db`users
    ensures db.Valid()
    ensures (r, db.users) == CreateUserEffect(old(db.users), user, newUserId, now, fault)
  {
    var statsPrivacy := user.statsPrivacy;
    if statsPrivacy == "" {
      statsPrivacy := DefaultStatsPrivacy;
    }
    TrimSpaceEmptyIffBlank(user.username);
    ghost var o := CreateUserEffect(db.users, user, newUserId, now, fault);
    if TrimSpace(user.username) == "" {
      return Err(Failure(MsgEmptyUsername));
    }
    var dbErr := fault;
    if dbErr.None? {
      dbErr := UserInsertViolation(db.users, user);
      if dbErr.Some? {
        UserViolationIsMapped(db.users, user);
      }
    }
    if dbErr.Some? {
      var (handled, appErr) := HandlePgError(dbErr.value, UserConstraints);
      if handled {
        return Err(appErr);
      }
      return Err(Database(dbErr.value));
    }
    var row := User(newUserId, user.username, user.email, user.displayName, user.avatarUrl,
                    user.avatarSource, statsPrivacy, NullText, NullText, now, now, SqlNullTime(now, true));
    assert row == NewUserRow(user, newUserId, now);
    assert o == (Ok(newUserId), db.users + [row]);
    CreateUserKeepsUsersValid(db.users, user, newUserId, now, fault);
    assert IdentitiesValid(db.identities, db.users + [row]);
    db.users := db.users + [row];
    r := Ok(newUserId);
  }

  // ---------------------------------------------------------------- updating users

  /** The SET clauses of the UPDATE statements on users. */
  datatype UserChange =
    | LastLogin(at: int)
    | Theme(uiTheme: SqlNullString, colorTheme: SqlNullString, at: int)
      /** Column name to new value, for the columns UpdateUserProfile accepts. */
    | Profile(assignments: map<string, string>, at: int)

  function ApplyChange(u: User, c: UserChange): (v: User)
    ensures v.userId == u.userId && v.username == u.username && v.email == u.email
    ensures v.createdAt == u.createdAt
  {
    match c
    case LastLogin(at) => u.(lastLoginAt := SqlNullTime(at, true), updatedAt := at)
    case Theme(ui, color, at) => u.(uiTheme := ui, colorTheme := color, updatedAt := at)
    case Profile(m, at) =>
      u.(displayName := if "display_name" in m then SqlNullString(m["display_name"], true) else u.displayName,
         avatarUrl := if "avatar_url" in m then SqlNullString(m["avatar_url"], true) else u.avatarUrl,
         avatarSource := if "avatar_source" in m then SqlNullString(m["avatar_source"], true) else u.avatarSource,
         statsPrivacy := if "stats_privacy" in m then m["stats_privacy"] else u.statsPrivacy,
         updatedAt := at)
  }

  /** `UPDATE users SET … WHERE user_id = $n`: every matching row changes, no other row does. */
  function UpdateUserRows(users: seq<User>, userId: string, c: UserChange): (r: seq<User>)
    ensures |r| == |users|
    ensures forall i :: 0 <= i < |users| ==> r[i] == if users[i].userId == userId then ApplyChange(users[i], c) else users[i]
  {
    seq(|users|, i requires 0 <= i < |users| => if users[i].userId == userId then ApplyChange(users[i], c) else users[i])
  }

  /** The number of rows `WHERE user_id = $n` matches: the rows affected. */
  function RowsWithUserId(users: seq<User>, userId: string): (n: nat)
    ensures n == 0 <==> userId !in UserIds(users)
  {
    if users == [] then 0
    else
      assert UserIds(users) == {users[0].userId} + UserIds(users[1..]) by {
        assert users == [users[0]] + users[1..];
      }
      (if users[0].userId == userId then 1 else 0) + RowsWithUserId(users[1..], userId)
  }

  /** An update of users never touches a key, so the constraints and the ids stay as they were. */
  lemma UpdateKeepsUsersValid(users: seq<User>, userId: string, c: UserChange)
    requires UsersValid(users)
    ensures UsersValid(UpdateUserRows(users, userId, c))
    ensures UserIds(UpdateUserRows(users, userId, c)) == UserIds(users)
  {
    var r := UpdateUserRows(users, userId, c);
    forall i, j | 0 <= i < j < |r|
      ensures UserKeysDistinct(r[i], r[j])
    {
      assert UserKeysDistinct(users[i], users[j]);
    }
    forall id | id in UserIds(users)
      ensures id in UserIds(r)
    {
      var k :| 0 <= k < |users| && users[k].userId == id;
      assert r[k].userId == id;
    }
    forall id | id in UserIds(r)
      ensures id in UserIds(users)
    {
      var k :| 0 <= k < |r| && r[k].userId == id;
      assert users[k].userId == id;
    }
  }

  /** Read-back: after an update the user's row is the old row with the change applied. */
  lemma {:induction false} UpdatedUserReadsBack(users: seq<User>, userId: string, c: UserChange)
    requires userId in UserIds(users)
    ensures FindUserById(UpdateUserRows(users, userId, c), userId) == Some(ApplyChange(FindUserById(users, userId).value, c))
  {
    var r := UpdateUserRows(users, userId, c);
    if users[0].userId == userId {
      assert r[0] == ApplyChange(users[0], c);
    } else {
      assert FindUserById(users, userId) == FindUserById(users[1..], userId);
      assert r[0] == users[0];
      UpdateRowsTail(users, userId, c);
      UpdatedUserReadsBack(users[1..], userId, c);
    }
  }

  lemma UpdateRowsTail(users: seq<User>, userId: string, c: UserChange)
    requires users != []
    ensures UpdateUserRows(users, userId, c)[1..] == UpdateUserRows(users[1..], userId, c)
  {
    var r := UpdateUserRows(users, userId, c);
    var t := UpdateUserRows(users[1..], userId, c);
    forall i | 0 <= i < |t|
      ensures r[1..][i] == t[i]
    {
      assert r[1..][i] == r[i + 1];
    }
  }

  /** An update whose WHERE matches nothing leaves the table as it is. */
  lemma UpdateOfAbsentUserIsNoOp(users: seq<User>, userId: string, c: UserChange)
    requires userId !in UserIds(users)
    ensures UpdateUserRows(users, userId, c) == users
  {
    var r := UpdateUserRows(users, userId, c);
    forall i | 0 <= i < |users|
      ensures r[i] == users[i]
    {
      assert users[i] in users;
    }
  }

  /**
   * An UPDATE on users followed by the rows-affected check: a driver failure
   * is wrapped and changes nothing; otherwise the matching rows change, and
   * when there are none the result is `notFound`.
   */
  function UpdateUserEffect(users: seq<User>, userId: string, c: UserChange, fault: Option<DbError>, notFound: Error)
    : (o: (Option<Error>, seq<User>))
    ensures fault.Some? ==> o == (Some(Database(fault.value)), users)
    ensures fault.None? ==> o.1 == UpdateUserRows(users, userId, c)
    ensures fault.None? ==> (o.0.None? <==> userId in UserIds(users))
    ensures fault.None? && o.0.Some? ==> o.0.value == notFound && o.1 == users
  {
    if fault.Some? then (Some(Database(fault.value)), users)
    else if RowsWithUserId(users, userId) == 0 then
      UpdateOfAbsentUserIsNoOp(users, userId, c);
      (Some(notFound), UpdateUserRows(users, userId, c))
    else (None, UpdateUserRows(users, userId, c))
  }

  /** The zero-rows error of UpdateUserLastLogin is plain text, not ErrUserNotFound. */
  function LastLoginNotFound(userId: string): Error {
    Failure("no user found with ID " + userId + " to update last login time")
  }

  /** UpdateUserLastLogin: both last_login_at and updated_at become the current time. */
  method UpdateUserLastLogin(db: Database, userId: string, now: int, fault: Option<DbError>) returns (err: Option<Error>)
    requires db.Valid()
    modifies db`users
    ensures db.Valid()
    ensures (err, db.users) == UpdateUserEffect(old(db.users), userId, LastLogin(now), fault, LastLoginNotFound(userId))
    ensures err != Some(UserNotFound)
  {
    err := ExecUserUpdate(db, userId, LastLogin(now), fault, LastLoginNotFound(userId));
  }

  /** UpdateUserThemeSettings: empty theme names are stored as NULL; no matching row is ErrUserNotFound. */
  method UpdateUserThemeSettings(db: Database, userId: string, uiTheme: string, colorTheme: string, now: int, fault: Option<DbError>)
    returns (err: Option<Error>)
    requires db.Valid()
    modifies db`users
    ensures db.Valid()
    ensures (err, db.users) ==
      UpdateUserEffect(old(db.users), userId, Theme(NullString(uiTheme), NullString(colorTheme), now), fault, UserNotFound)
  {
    err := ExecUserUpdate(db, userId, Theme(NullString(uiTheme), NullString(colorTheme), now), fault, UserNotFound);
  }

  /** ExecContext of an UPDATE on users followed by RowsAffected. */
  method ExecUserUpdate(db: Database, userId: string, c: UserChange, fault: Option<DbError>, notFound: Error)
    returns (err: Option<Error>)
    requires db.Valid()
    modifies db`users
    ensures db.Valid()
    ensures (err, db.users) == UpdateUserEffect(old(db.users), userId, c, fault, notFound)
  {
    if fault.Some? {
      return Some(Database(fault.value));
    }
    var rowsAffected := RowsWithUserId(db.users, userId);
    UpdateKeepsUsersValid(db.users, userId, c);
    db.users := UpdateUserRows(db.users, userId, c);
    if rowsAffected == 0 {
      return Some(notFound);
    }
    return None;
  }

  // ---------------------------------------------------------------- UpdateUserProfile

  const ProfileColumns: set<string> := {"display_name", "avatar_url", "avatar_source", "stats_privacy"}

  /** A field UpdateUserProfile accepts: a supported column, and for stats_privacy a valid value. */
  predicate IsAcceptedProfileUpdate(field: string, value: string) {
    field in ProfileColumns && (field == "stats_privacy" ==> IsValidStatsPrivacy(value))
  }

  predicate RejectsProfileUpdate(updates: map<string, string>) {
    exists field :: field in updates && !IsAcceptedProfileUpdate(field, updates[field])
  }

  /** The error text UpdateUserProfile gives for a field it refuses. */
  function RejectMessage(field: string, value: string): string {
    if field == "stats_privacy" then "invalid value for stats_privacy: " + value
    else "unsupported field for update: " + field
  }

  /**
   * UpdateUserProfile. The map is walked in no particular order, building the
   * SET clause; the first refused field ends the walk with its error and
   * nothing is written. An empty map is a successful no-op. Since every field
   * is either added to the SET clause or refused, the clause is never empty
   * after the walk.
   */
  method UpdateUserProfile(db: Database, userId: string, updates: map<string, string>, now: int, fault: Option<DbError>)
    returns (err: Option<Error>)
    requires db.Valid()
    modifies db`users
    ensures db.Valid()
    ensures |updates| == 0 ==> err.None? && db.users == old(db.users)
    ensures RejectsProfileUpdate(updates) ==>
      db.users == old(db.users)
      && exists field :: field in updates && !IsAcceptedProfileUpdate(field, updates[field])
                      && err == Some(Failure(RejectMessage(field, updates[field])))
    ensures |updates| > 0 && !RejectsProfileUpdate(updates) ==>
      (err, db.users) == UpdateUserEffect(old(db.users), userId, Profile(updates, now), fault, UserNotFound)
  {
    if |updates| == 0 {
      return None;
    }
    var setClause;
    setClause, err := BuildProfileSetClause(updates);
    if err.Some? {
      return;
    }
    err := ExecUserUpdate(db, userId, Profile(setClause, now), fault, UserNotFound);
  }

  /**
   * The walk over the requested fields that builds the SET clause: every
   * accepted field goes in with its value, and the first refused field ends
   * the walk with its error.
   */
  method BuildProfileSetClause(updates: map<string, string>) returns (setClause: map<string, string>, err: Option<Error>)
    ensures err.None? <==> !RejectsProfileUpdate(updates)
    ensures err.None? ==> setClause == updates
    ensures err.Some? ==>
      exists field :: field in updates && !IsAcceptedProfileUpdate(field, updates[field])
                   && err == Some(Failure(RejectMessage(field, updates[field])))
  {
    setClause := map[];
    var remaining := updates.Keys;
    while remaining != {}
      invariant remaining <= updates.Keys
      invariant forall f :: f in setClause <==> f in updates && f !in remaining
      invariant forall field :: field in setClause ==>
        setClause[field] == updates[field] && IsAcceptedProfileUpdate(field, updates[field])
      decreases |remaining|
    {
      var field :| field in remaining;
      var value := updates[field];
      if field == "display_name" || field == "avatar_url" || field == "avatar_source" {
        setClause := setClause[field := value];
      } else if field == "stats_privacy" {
        if !IsValidStatsPrivacy(value) {
          assert !IsAcceptedProfileUpdate(field, updates[field]);
          return setClause, Some(Failure("invalid value for stats_privacy: " + value));
        }
        setClause := setClause[field := value];
      } else {
        assert !IsAcceptedProfileUpdate(field, updates[field]);
        return setClause, Some(Failure("unsupported field for update: " + field));
      }
      remaining := remaining - {field};
    }
    assert setClause == updates;
    assert forall field :: field in updates ==> IsAcceptedProfileUpdate(field, updates[field]);
    err := None;
  }

  // ---------------------------------------------------------------- reading identities

  predicate IdentityMatches(pi: ProviderIdentity, providerName: string, providerUserId: string) {
    pi.providerName == providerName && pi.providerUserId == providerUserId
  }

  /** Some identity row is the given provider account. */
  predicate ProviderAccountLinked(identities: seq<ProviderIdentity>, providerName: string, providerUserId: string) {
    exists i :: 0 <= i < |identities| && IdentityMatches(identities[i], providerName, providerUserId)
  }

  predicate HasProvider(pi: ProviderIdentity, userId: string, providerName: string) {
    pi.userId == userId && pi.providerName == providerName
  }

  /** The user already has an identity with this provider. */
  predicate UserHasProvider(identities: seq<ProviderIdentity>, userId: string, providerName: string) {
    exists i :: 0 <= i < |identities| && HasProvider(identities[i], userId, providerName)
  }

  /** The row `WHERE provider_name = $1 AND provider_user_id = $2` returns. */
  function FindIdentity(identities: seq<ProviderIdentity>, providerName: string, providerUserId: string)
    : (r: Option<ProviderIdentity>)
    ensures r.Some? ==> r.value in identities && IdentityMatches(r.value, providerName, providerUserId)
    ensures r.None? <==> !ProviderAccountLinked(identities, providerName, providerUserId)
  {
    if identities == [] then None
    else if IdentityMatches(identities[0], providerName, providerUserId) then Some(identities[0])
    else
      var r := FindIdentity(identities[1..], providerName, providerUserId);
      assert r.None? ==> !ProviderAccountLinked(identities, providerName, providerUserId) by {
        if r.None? {
          forall i | 1 <= i < |identities|
            ensures !IdentityMatches(identities[i], providerName, providerUserId)
          {
            assert identities[i] == identities[1..][i - 1];
          }
        }
      }
      r
  }

  /** GetUserProviderIdentity: matched on both provider name and provider user id. */
  function GetUserProviderIdentity(identities: seq<ProviderIdentity>, providerName: string, providerUserId: string,
                                   fault: Option<DbError>): (r: Result<ProviderIdentity, Error>)
    ensures fault.Some? ==> r == Err(Database(fault.value))
    ensures fault.None? ==> (r == Err(UserProviderIdentityNotFound) <==> !ProviderAccountLinked(identities, providerName, providerUserId))
    ensures fault.None? ==> (r.Ok? <==> ProviderAccountLinked(identities, providerName, providerUserId))
    ensures r.Ok? ==> r.value in identities && r.value.providerName == providerName && r.value.providerUserId == providerUserId
  {
    if fault.Some? then Err(Database(fault.value))
    else match FindIdentity(identities, providerName, providerUserId)
      case Some(pi) => Ok(pi)
      case None => Err(UserProviderIdentityNotFound)
  }

  // ---------------------------------------------------------------- CreateUserProviderIdentity

  function NewIdentityRow(identity: NewIdentity, identityId: string, now: int): (r: ProviderIdentity)
    ensures r.providerIdentityId == identityId && r.userId == identity.userId
    ensures r.providerName == identity.providerName && r.providerUserId == identity.providerUserId
    ensures r.providerEmail == identity.providerEmail && r.providerDisplayName == identity.providerDisplayName
    ensures r.providerAvatarUrl == identity.providerAvatarUrl
    ensures r.createdAt == now && r.updatedAt == now
  {
    ProviderIdentity(identityId, identity.userId, identity.providerName, identity.providerUserId,
                     identity.providerEmail, identity.providerDisplayName, identity.providerAvatarUrl, now, now)
  }

  /**
   * The constraint the identity insert violates: the two unique indexes are
   * probed during the insert; the reference to users is checked after it.
   */
  function IdentityInsertViolation(identities: seq<ProviderIdentity>, users: seq<User>, identity: NewIdentity)
    : (r: Option<DbError>)
    ensures r.Some? <==> (ProviderAccountLinked(identities, identity.providerName, identity.providerUserId)
      || UserHasProvider(identities, identity.userId, identity.providerName) || identity.userId !in UserIds(users))
    ensures r.Some? ==> r.value.PgError?
    ensures r.Some? && r.value.code == UniqueViolationCode ==> r.value.constraintName in IdentityConstraints
  {
    if ProviderAccountLinked(identities, identity.providerName, identity.providerUserId) then
      Some(PgError(UniqueViolationCode, "uq_user_providers_identities_provider", ""))
    else if UserHasProvider(identities, identity.userId, identity.providerName) then
      Some(PgError(UniqueViolationCode, "uq_user_providers_identities_user_provider", ""))
    else if identity.userId !in UserIds(users) then
      Some(PgError(ForeignKeyViolationCode, "user_provider_identities_user_id_fkey", ""))
    else None
  }

  /**
   * CreateUserProviderIdentity's result and the new identities table: either
   * uniqueness violation is ErrProviderIdentityConflict and adds nothing; an
   * identity for a user that does not exist is a wrapped database error.
   */
  function CreateIdentityEffect(identities: seq<ProviderIdentity>, users: seq<User>, identity: NewIdentity,
                                identityId: string, now: int, fault: Option<DbError>)
    : (o: (Result<string, Error>, seq<ProviderIdentity>))
    ensures o.0.Ok? <==>
      fault.None? && !ProviderAccountLinked(identities, identity.providerName, identity.providerUserId)
      && !UserHasProvider(identities, identity.userId, identity.providerName) && identity.userId in UserIds(users)
    ensures o.0.Ok? ==> o.0.value == identityId && o.1 == identities + [NewIdentityRow(identity, identityId, now)]
    ensures o.0.Err? ==> o.1 == identities
    ensures fault.None? && (ProviderAccountLinked(identities, identity.providerName, identity.providerUserId)
                            || UserHasProvider(identities, identity.userId, identity.providerName))
      ==> o.0 == Err(ProviderIdentityConflict)
    ensures fault.None? && identity.userId !in UserIds(users) ==> o.0.Err?
    ensures fault.Some? ==> o.0 == Err(HandlePgError(fault.value, IdentityConstraints).1)
  {
    var dbErr := if fault.Some? then fault else IdentityInsertViolation(identities, users, identity);
    if dbErr.Some? then (Err(HandlePgError(dbErr.value, IdentityConstraints).1), identities)
    else (Ok(identityId), identities + [NewIdentityRow(identity, identityId, now)])
  }

  lemma CreateIdentityKeepsValid(identities: seq<ProviderIdentity>, users: seq<User>, identity: NewIdentity,
                                 identityId: string, now: int, fault: Option<DbError>)
    requires IdentitiesValid(identities, users) && identityId !in IdentityIds(identities)
    ensures IdentitiesValid(CreateIdentityEffect(identities, users, identity, identityId, now, fault).1, users)
  {
    var o := CreateIdentityEffect(identities, users, identity, identityId, now, fault);
    if o.0.Ok? {
      var row := NewIdentityRow(identity, identityId, now);
      forall i | 0 <= i < |identities|
        ensures IdentityKeysDistinct(identities[i], row)
      {
        assert identities[i] in identities;
        assert !IdentityMatches(identities[i], identity.providerName, identity.providerUserId);
        assert !HasProvider(identities[i], identity.userId, identity.providerName);
      }
      assert o.1 == identities + [row];
    }
  }

  /** Round trip: the identity just created is what GetUserProviderIdentity returns for its provider account. */
  lemma CreatedIdentityReadsBack(identities: seq<ProviderIdentity>, users: seq<User>, identity: NewIdentity,
                                 identityId: string, now: int, fault: Option<DbError>)
    requires CreateIdentityEffect(identities, users, identity, identityId, now, fault).0.Ok?
    ensures GetUserProviderIdentity(CreateIdentityEffect(identities, users, identity, identityId, now, fault).1,
                                    identity.providerName, identity.providerUserId, None)
      == Ok(NewIdentityRow(identity, identityId, now))
  {
    FindIdentityPastUnmatched(identities, [NewIdentityRow(identity, identityId, now)], identity.providerName, identity.providerUserId);
  }

  lemma {:induction false} FindIdentityPastUnmatched(a: seq<ProviderIdentity>, b: seq<ProviderIdentity>,
                                                     providerName: string, providerUserId: string)
    requires !ProviderAccountLinked(a, providerName, providerUserId)
    ensures FindIdentity(a + b, providerName, providerUserId) == FindIdentity(b, providerName, providerUserId)
  {
    if a == [] {
      assert a + b == b;
    } else {
      assert (a + b)[0] == a[0] && (a + b)[1..] == a[1..] + b;
      assert !IdentityMatches(a[0], providerName, providerUserId);
      assert !ProviderAccountLinked(a[1..], providerName, providerUserId) by {
        forall i | 0 <= i < |a[1..]|
          ensures !IdentityMatches(a[1..][i], providerName, providerUserId)
        {
          assert a[1..][i] == a[i + 1];
        }
      }
      FindIdentityPastUnmatched(a[1..], b, providerName, providerUserId);
    }
  }

  method CreateUserProviderIdentity(db: Database, identity: NewIdentity, identityId: string, now: int, fault: Option<DbError>)
    returns (r: Result<string, Error>)
    requires db.Valid() && identityId !in IdentityIds(db.identities)
    modifies db`identities
    ensures db.Valid()
    ensures (r, db.identities) == CreateIdentityEffect(old(db.identities), db.users, identity, identityId, now, fault)
  {
    var dbErr := fault;
    if dbErr.None? {
      dbErr := IdentityInsertViolation(db.identities, db.users, identity);
    }
    if dbErr.Some? {
      var (handled, appErr) := HandlePgError(dbErr.value, IdentityConstraints);
      if handled {
        return Err(appErr);
      }
      return Err(Database(dbErr.value));
    }
    CreateIdentityKeepsValid(db.identities, db.users, identity, identityId, now, fault);
    db.identities := db.identities + [NewIdentityRow(identity, identityId, now)];
    r := Ok(identityId);
  }

  // ---------------------------------------------------------------- UpdateUserProviderIdentityDetails

  /** The provider-supplied details of the identity with the given id are replaced; empty values become NULL. */
  function RefreshIdentityRows(identities: seq<ProviderIdentity>, identityId: string, gothUser: GothUser, now: int)
    : (r: seq<ProviderIdentity>)
    ensures |r| == |identities|
    ensures forall i :: 0 <= i < |identities| && identities[i].providerIdentityId == identityId ==>
      r[i].providerEmail == NullString(gothUser.email)
      && r[i].providerDisplayName == NullString(gothUser.name)
      && r[i].providerAvatarUrl == NullString(gothUser.avatarUrl)
      && r[i].updatedAt == now
    ensures forall i :: 0 <= i < |identities| && identities[i].providerIdentityId != identityId ==> r[i] == identities[i]
    ensures forall i :: 0 <= i < |identities| ==>
      r[i].(providerEmail := identities[i].providerEmail, providerDisplayName := identities[i].providerDisplayName,
            providerAvatarUrl := identities[i].providerAvatarUrl, updatedAt := identities[i].updatedAt) == identities[i]
  {
    seq(|identities|, i requires 0 <= i < |identities| =>
      if identities[i].providerIdentityId == identityId then
        identities[i].(providerEmail := NullString(gothUser.email), providerDisplayName := NullString(gothUser.name),
                       providerAvatarUrl := NullString(gothUser.avatarUrl), updatedAt := now)
      else identities[i])
  }

  function RowsWithIdentityId(identities: seq<ProviderIdentity>, identityId: string): (n: nat)
    ensures n == 0 <==> identityId !in IdentityIds(identities)
  {
    if identities == [] then 0
    else
      assert IdentityIds(identities) == {identities[0].providerIdentityId} + IdentityIds(identities[1..]) by {
        assert identities == [identities[0]] + identities[1..];
      }
      (if identities[0].providerIdentityId == identityId then 1 else 0) + RowsWithIdentityId(identities[1..], identityId)
  }

  lemma RefreshKeepsIdentitiesValid(identities: seq<ProviderIdentity>, users: seq<User>, identityId: string,
                                    gothUser: GothUser, now: int)
    requires IdentitiesValid(identities, users)
    ensures IdentitiesValid(RefreshIdentityRows(identities, identityId, gothUser, now), users)
    ensures IdentityIds(RefreshIdentityRows(identities, identityId, gothUser, now)) == IdentityIds(identities)
  {
    var r := RefreshIdentityRows(identities, identityId, gothUser, now);
    forall i, j | 0 <= i < j < |r|
      ensures IdentityKeysDistinct(r[i], r[j])
    {
      assert IdentityKeysDistinct(identities[i], identities[j]);
    }
    forall id | id in IdentityIds(identities)
      ensures id in IdentityIds(r)
    {
      var k :| 0 <= k < |identities| && identities[k].providerIdentityId == id;
      assert r[k].providerIdentityId == id;
    }
    forall id | id in IdentityIds(r)
      ensures id in IdentityIds(identities)
    {
      var k :| 0 <= k < |r| && r[k].providerIdentityId == id;
      assert identities[k].providerIdentityId == id;
    }
  }

  /** UpdateUserProviderIdentityDetails' result and new table: an unknown id is ErrUserProviderIdentityNotFound. */
  function RefreshIdentityEffect(identities: seq<ProviderIdentity>, identityId: string, gothUser: GothUser, now: int,
                                 fault: Option<DbError>): (o: (Option<Error>, seq<ProviderIdentity>))
    ensures fault.Some? ==> o == (Some(Database(fault.value)), identities)
    ensures fault.None? ==> o.1 == RefreshIdentityRows(identities, identityId, gothUser, now)
    ensures fault.None? ==>
      (o.0 == Some(UserProviderIdentityNotFound) <==> identityId !in IdentityIds(identities))
      && (o.0.None? <==> identityId in IdentityIds(identities))
  {
    if fault.Some? then (Some(Database(fault.value)), identities)
    else
      var rows := RefreshIdentityRows(identities, identityId, gothUser, now);
      (if RowsWithIdentityId(identities, identityId) == 0 then Some(UserProviderIdentityNotFound) else None, rows)
  }

  method UpdateUserProviderIdentityDetails(db: Database, identityId: string, gothUser: GothUser, now: int,
                                           fault: Option<DbError>) returns (err: Option<Error>)
    requires db.Valid()
    modifies db`identities
    ensures db.Valid()
    ensures (err, db.identities) == RefreshIdentityEffect(old(db.identities), identityId, gothUser, now, fault)
  {
    if fault.Some? {
      return Some(Database(fault.value));
    }
    var rowsAffected := RowsWithIdentityId(db.identities, identityId);
    RefreshKeepsIdentitiesValid(db.identities, db.users, identityId, gothUser, now);
    db.identities := RefreshIdentityRows(db.identities, identityId, gothUser, now);
    if rowsAffected == 0 {
      return Some(UserProviderIdentityNotFound);
    }
    return None;
  }

  // ---------------------------------------------------------------- DeleteUserProviderIdentity

  /** `SELECT COUNT(*) … WHERE user_id = $1`: the user's login methods. */
  function IdentityCount(identities: seq<ProviderIdentity>, userId: string): (n: nat)
    ensures n <= |identities|
    ensures n == 0 <==> forall i :: 0 <= i < |identities| ==> identities[i].userId != userId
  {
    if identities == [] then 0
    else (if identities[0].userId == userId then 1 else 0) + IdentityCount(identities[1..], userId)
  }

  /** The rows `WHERE user_id = $1 AND provider_name = $2` matches. */
  function ProviderRowCount(identities: seq<ProviderIdentity>, userId: string, providerName: string): (n: nat)
    ensures n == 0 <==> !UserHasProvider(identities, userId, providerName)
  {
    if identities == [] then 0
    else
      var n := ProviderRowCount(identities[1..], userId, providerName);
      assert n == 0 ==> forall i :: 1 <= i < |identities| ==> !HasProvider(identities[i], userId, providerName) by {
        if n == 0 {
          forall i | 1 <= i < |identities|
            ensures !HasProvider(identities[i], userId, providerName)
          {
            assert identities[i] == identities[1..][i - 1];
          }
        }
      }
      (if HasProvider(identities[0], userId, providerName) then 1 else 0) + n
  }

  /** The table after `DELETE … WHERE user_id = $1 AND provider_name = $2`. */
  function RemoveProviderRows(identities: seq<ProviderIdentity>, userId: string, providerName: string)
    : (r: seq<ProviderIdentity>)
    ensures |r| + ProviderRowCount(identities, userId, providerName) == |identities|
    ensures forall pi :: pi in r <==> pi in identities && !HasProvider(pi, userId, providerName)
  {
    if identities == [] then []
    else
      var rest := RemoveProviderRows(identities[1..], userId, providerName);
      assert forall pi :: pi in identities <==> pi == identities[0] || pi in identities[1..];
      if HasProvider(identities[0], userId, providerName) then rest else [identities[0]] + rest
  }

  /** Removal takes away exactly the matching rows from the user's count. */
  lemma {:induction false} RemoveProviderRowsCount(identities: seq<ProviderIdentity>, userId: string, providerName: string)
    ensures IdentityCount(RemoveProviderRows(identities, userId, providerName), userId)
      + ProviderRowCount(identities, userId, providerName) == IdentityCount(identities, userId)
  {
    if identities != [] {
      RemoveProviderRowsCount(identities[1..], userId, providerName);
      var rest := RemoveProviderRows(identities[1..], userId, providerName);
      if !HasProvider(identities[0], userId, providerName) {
        assert ([identities[0]] + rest)[1..] == rest;
      }
    }
  }

  /** Under uq_user_providers_identities_user_provider at most one row matches a (user, provider) pair. */
  lemma {:induction false} AtMostOneProviderRow(identities: seq<ProviderIdentity>, users: seq<User>, userId: string,
                                                providerName: string)
    requires IdentitiesValid(identities, users)
    ensures ProviderRowCount(identities, userId, providerName) <= 1
  {
    if identities != [] {
      var tail := identities[1..];
      TailIdentitiesValid(identities, users);
      AtMostOneProviderRow(tail, users, userId, providerName);
      if HasProvider(identities[0], userId, providerName) {
        forall i | 0 <= i < |tail|
          ensures !HasProvider(tail[i], userId, providerName)
        {
          assert IdentityKeysDistinct(identities[0], identities[i + 1]);
        }
      }
    }
  }

  /** The rows after the first of a valid identities table are valid too. */
  lemma TailIdentitiesValid(identities: seq<ProviderIdentity>, users: seq<User>)
    requires IdentitiesValid(identities, users) && identities != []
    ensures IdentitiesValid(identities[1..], users)
  {
    var tail := identities[1..];
    forall i, j | 0 <= i < j < |tail|
      ensures IdentityKeysDistinct(tail[i], tail[j])
    {
      assert IdentityKeysDistinct(identities[i + 1], identities[j + 1]);
    }
    forall i | 0 <= i < |tail|
      ensures tail[i].userId in UserIds(users)
    {
      assert tail[i] == identities[i + 1];
    }
  }

  /** A row of an existing user whose keys clash with no row of a valid table can go in front of it. */
  lemma ConsIdentitiesValid(pi: ProviderIdentity, rest: seq<ProviderIdentity>, users: seq<User>)
    requires IdentitiesValid(rest, users) && pi.userId in UserIds(users)
    requires forall k :: 0 <= k < |rest| ==> IdentityKeysDistinct(pi, rest[k])
    ensures IdentitiesValid([pi] + rest, users)
  {
    var r := [pi] + rest;
    forall i, j | 0 <= i < j < |r|
      ensures IdentityKeysDistinct(r[i], r[j])
    {
      if i == 0 {
        assert r[j] == rest[j - 1];
      } else {
        assert r[i] == rest[i - 1] && r[j] == rest[j - 1];
      }
    }
    forall i | 0 <= i < |r|
      ensures r[i].userId in UserIds(users)
    {
      if i > 0 {
        assert r[i] == rest[i - 1];
      }
    }
  }

  /** Removing rows keeps every constraint: the survivors are rows of the old table, in the old order. */
  lemma {:induction false} RemoveKeepsIdentitiesValid(identities: seq<ProviderIdentity>, users: seq<User>, userId: string,
                                                      providerName: string)
    requires IdentitiesValid(identities, users)
    ensures IdentitiesValid(RemoveProviderRows(identities, userId, providerName), users)
  {
    if identities != [] {
      var tail := identities[1..];
      TailIdentitiesValid(identities, users);
      RemoveKeepsIdentitiesValid(tail, users, userId, providerName);
      var rest := RemoveProviderRows(tail, userId, providerName);
      if !HasProvider(identities[0], userId, providerName) {
        forall k | 0 <= k < |rest|
          ensures IdentityKeysDistinct(identities[0], rest[k])
        {
          assert rest[k] in rest;
          var m :| 0 <= m < |tail| && tail[m] == rest[k];
          assert IdentityKeysDistinct(identities[0], identities[m + 1]);
        }
        ConsIdentitiesValid(identities[0], rest, users);
      }
    }
  }

  /**
   * DeleteUserProviderIdentity's result and new table: the count comes
   * first, and a user with at most one identity keeps it.
   */
  function DeleteIdentityEffect(identities: seq<ProviderIdentity>, userId: string, providerName: string,
                                countFault: Option<DbError>, deleteFault: Option<DbError>)
    : (o: (Option<Error>, seq<ProviderIdentity>))
    ensures countFault.Some? ==> o == (Some(Database(countFault.value)), identities)
    ensures countFault.None? && IdentityCount(identities, userId) <= 1 ==> o == (Some(DeleteLastProviderIdentity), identities)
    ensures countFault.None? && IdentityCount(identities, userId) > 1 && deleteFault.Some? ==>
      o == (Some(Database(deleteFault.value)), identities)
    ensures countFault.None? && IdentityCount(identities, userId) > 1 && deleteFault.None? ==>
      o.1 == RemoveProviderRows(identities, userId, providerName)
      && (o.0 == Some(UserProviderIdentityNotFound) <==> !UserHasProvider(identities, userId, providerName))
      && (o.0.None? <==> UserHasProvider(identities, userId, providerName))
  {
    if countFault.Some? then (Some(Database(countFault.value)), identities)
    else if IdentityCount(identities, userId) <= 1 then (Some(DeleteLastProviderIdentity), identities)
    else if deleteFault.Some? then (Some(Database(deleteFault.value)), identities)
    else
      var rows := RemoveProviderRows(identities, userId, providerName);
      (if ProviderRowCount(identities, userId, providerName) == 0 then Some(UserProviderIdentityNotFound) else None, rows)
  }

  /** Unlinking never leaves a user who had a login method without one. */
  lemma DeleteKeepsALoginMethod(identities: seq<ProviderIdentity>, users: seq<User>, userId: string, providerName: string,
                                countFault: Option<DbError>, deleteFault: Option<DbError>)
    requires IdentitiesValid(identities, users)
    ensures IdentitiesValid(DeleteIdentityEffect(identities, userId, providerName, countFault, deleteFault).1, users)
    ensures IdentityCount(identities, userId) >= 1 ==>
      IdentityCount(DeleteIdentityEffect(identities, userId, providerName, countFault, deleteFault).1, userId) >= 1
  {
    RemoveProviderRowsCount(identities, userId, providerName);
    AtMostOneProviderRow(identities, users, userId, providerName);
    RemoveKeepsIdentitiesValid(identities, users, userId, providerName);
  }

  method DeleteUserProviderIdentity(db: Database, userId: string, providerName: string,
                                    countFault: Option<DbError>, deleteFault: Option<DbError>) returns (err: Option<Error>)
    requires db.Valid()
    modifies db`identities
    ensures db.Valid()
    ensures (err, db.identities) == DeleteIdentityEffect(old(db.identities), userId, providerName, countFault, deleteFault)
  {
    if countFault.Some? {
      return Some(Database(countFault.value));
    }
    var count := IdentityCount(db.identities, userId);
    if count <= 1 {
      return Some(DeleteLastProviderIdentity);
    }
    if deleteFault.Some? {
      return Some(Database(deleteFault.value));
    }
    var rowsAffected := ProviderRowCount(db.identities, userId, providerName);
    RemoveKeepsIdentitiesValid(db.identities, db.users, userId, providerName);
    db.identities := RemoveProviderRows(db.identities, userId, providerName);
    if rowsAffected == 0 {
      return Some(UserProviderIdentityNotFound);
    }
    return None;
  }
}
