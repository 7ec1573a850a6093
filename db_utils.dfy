/**
 * The database layer's shared vocabulary: nullable column values, the stats
 * privacy check, the error values the store returns, and the translation of
 * PostgreSQL unique-constraint violations into those errors.
 */
module DbUtils {
  import opened Wrappers

  /** sql.NullString: a text column that may be NULL. */
  datatype SqlNullString = SqlNullString(str: string, valid: bool)

  /** sql.NullTime: a timestamp column that may be NULL; times are abstract instants. */
  datatype SqlNullTime = SqlNullTime(time: int, valid: bool)

  const NullText: SqlNullString := SqlNullString("", false)
  const NullInstant: SqlNullTime := SqlNullTime(0, false)

  /** NullString: the empty string is stored as NULL, anything else as itself. */
  function NullString(s: string): (r: SqlNullString)
    ensures r.valid <==> s != ""
    ensures r.str == s
  {
    if s == "" then NullText else SqlNullString(s, true)
  }

  const StatsPrivacyValues: set<string> := {"private", "friends_only", "public"}

  function IsValidStatsPrivacy(value: string): (ok: bool)
    ensures ok <==> value in StatsPrivacyValues
  {
    value == "private" || value == "friends_only" || value == "public"
  }

  /** What the driver reports: a PostgreSQL error with its SQLSTATE, or any other failure. */
  datatype DbError =
    | PgError(code: string, constraintName: string, detail: string)
    | DriverError(message: string)

  /** What a single-row query (QueryRow followed by Scan) can return. */
  datatype RowLookup<T> = Found(row: T) | NoRows | QueryFailed(cause: DbError)

  /** The error values of the database layer. */
  datatype Error =
    | UserNotFound
    | UserProviderIdentityNotFound
    | UsernameTaken
    | EmailTaken
    | ProviderIdentityConflict
    | InvalidStatsPrivacy
    | DeleteLastProviderIdentity
    | FriendshipSelf
    | GameNotFound
    | SessionNotFound
    | GuestPlayerNotFound
    | GamePlayerNotFound
    | PlayerAlreadyInGame
      /** A unique violation on a constraint the caller did not map. */
    | DataConflict(detail: string, cause: DbError)
      /** A driver or PostgreSQL error passed through, possibly wrapped with context. */
    | Database(cause: DbError)
      /** An error built from a message, wrapping nothing. */
    | Failure(message: string)

  /** The named sentinel errors; none of them wraps a driver error. */
  predicate IsSentinel(e: Error) {
    !(e.DataConflict? || e.Database? || e.Failure?)
  }

  const UniqueViolationCode := "23505"

  predicate IsUniqueViolation(e: DbError) {
    e.PgError? && e.code == UniqueViolationCode
  }

  /**
   * HandlePgError: a unique violation is handled, either as the error mapped
   * to its constraint or as a generic data conflict; anything else is passed
   * back unhandled.
   */
  function HandlePgError(dbErr: DbError, constraintMappings: map<string, Error>): (r: (bool, Error))
    ensures r.0 <==> IsUniqueViolation(dbErr)
    ensures !r.0 ==> r.1 == Database(dbErr)
    ensures r.0 && dbErr.constraintName in constraintMappings ==> r.1 == constraintMappings[dbErr.constraintName]
    ensures r.0 && dbErr.constraintName !in constraintMappings ==> r.1 == DataConflict(dbErr.detail, dbErr)
  {
    if dbErr.PgError? && dbErr.code == UniqueViolationCode then
      if dbErr.constraintName in constraintMappings then (true, constraintMappings[dbErr.constraintName])
      else (true, DataConflict(dbErr.detail, dbErr))
    else (false, Database(dbErr))
  }

  /**
   * A mapped sentinel comes back only for a unique violation on a mapped
   * constraint: a caller that sees one knows which constraint fired.
   */
  lemma HandledSentinelNamesConstraint(dbErr: DbError, constraintMappings: map<string, Error>)
    requires forall c :: c in constraintMappings ==> IsSentinel(constraintMappings[c])
    requires IsSentinel(HandlePgError(dbErr, constraintMappings).1)
    ensures IsUniqueViolation(dbErr) && dbErr.constraintName in constraintMappings
    ensures HandlePgError(dbErr, constraintMappings).1 == constraintMappings[dbErr.constraintName]
  {
  }
}
