/**
 * Friendship queries of the database layer: the relationship between two
 * users, classified from the one friendship row that links them, and the
 * number of accepted friendships of a user.
 */
module FriendshipStore {
  import opened Wrappers
  import opened DbUtils

  /** The database-side relationship, always read from the first user's side. */
  datatype DBFriendshipStatus =
    | Self
    | ViewerNotAuthenticated
    | NotFriends
    | Friends
    | PendingFirstSentToSecond
    | PendingSecondSentToFirst
    | BlockedSecondByFirst
    | BlockedFirstBySecond
    | Unknown

  /** A row of user_friendships; status is free text in the table. */
  datatype FriendshipRow = FriendshipRow(requesterId: string, addresseeId: string, status: string)

  /**
   * The (status, error) pair of GetFriendshipStatus; a status of None is the
   * empty status string returned beside an argument error.
   */
  datatype StatusResult = StatusResult(status: Option<DBFriendshipStatus>, err: Option<Error>)

  const MsgEmptyIds := "firstUserID or secondUserID cannot be empty"

  predicate Links(row: FriendshipRow, a: string, b: string) {
    (row.requesterId == a && row.addresseeId == b) || (row.requesterId == b && row.addresseeId == a)
  }

  /**
   * GetFriendshipStatus, given what the row query returned. Each status is
   * produced exactly in the situation the names describe, and an error comes
   * back exactly with the empty or the unknown status.
   */
  function GetFriendshipStatus(first: string, second: string, lookup: RowLookup<FriendshipRow>): (r: StatusResult)
    ensures first == "" || second == "" ==> r == StatusResult(None, Some(Failure(MsgEmptyIds)))
    ensures r.err.None? <==> r.status.Some? && r.status.value != Unknown
    ensures r.status == Some(Self) <==> first != "" && first == second
    ensures r.status == Some(Friends) <==>
      first != "" && second != "" && first != second && lookup.Found? && lookup.row.status == "accepted"
    ensures r.status == Some(NotFriends) <==>
      first != "" && second != "" && first != second
      && (lookup.NoRows? || (lookup.Found? && lookup.row.status == "declined"))
    ensures r.status == Some(PendingFirstSentToSecond) <==>
      first != "" && second != "" && first != second && lookup.Found? && lookup.row.status == "pending"
      && lookup.row.requesterId == first && lookup.row.addresseeId == second
    ensures r.status == Some(BlockedSecondByFirst) <==>
      first != "" && second != "" && first != second && lookup.Found? && lookup.row.status == "blocked"
      && lookup.row.requesterId == first && lookup.row.addresseeId == second
    ensures r.status != Some(ViewerNotAuthenticated)
  {
    if first == "" || second == "" then StatusResult(None, Some(Failure(MsgEmptyIds)))
    else if first == second then StatusResult(Some(Self), None)
    else match lookup
      case NoRows => StatusResult(Some(NotFriends), None)
      case QueryFailed(cause) => StatusResult(None, Some(Database(cause)))
      case Found(row) =>
        if row.status == "accepted" then StatusResult(Some(Friends), None)
        else if row.status == "pending" then
          if row.requesterId == first && row.addresseeId == second then StatusResult(Some(PendingFirstSentToSecond), None)
          else if row.requesterId == second && row.addresseeId == first then StatusResult(Some(PendingSecondSentToFirst), None)
          else StatusResult(Some(Unknown), Some(Failure("inconsistent pending state for user " + first + " and " + second)))
        else if row.status == "blocked" then
          if row.requesterId == first && row.addresseeId == second then StatusResult(Some(BlockedSecondByFirst), None)
          else if row.requesterId == second && row.addresseeId == first then StatusResult(Some(BlockedFirstBySecond), None)
          else StatusResult(Some(Unknown), Some(Failure("inconsistent blocked state for users " + first + " and " + second)))
        else if row.status == "declined" then StatusResult(Some(NotFriends), None)
        else StatusResult(Some(Unknown), Some(Failure("unknown status '" + row.status + "' for users " + first + " and " + second)))
  }

  /** The status seen from the other user's side. */
  function Mirror(s: DBFriendshipStatus): DBFriendshipStatus {
    match s
    case PendingFirstSentToSecond => PendingSecondSentToFirst
    case PendingSecondSentToFirst => PendingFirstSentToSecond
    case BlockedSecondByFirst => BlockedFirstBySecond
    case BlockedFirstBySecond => BlockedSecondByFirst
    case _ => s
  }

  /**
   * Asking about (second, first) instead of (first, second) over the same
   * row mirrors every directed status and keeps every undirected one.
   */
  lemma StatusIsSymmetric(first: string, second: string, row: FriendshipRow)
    requires first != "" && second != "" && first != second && Links(row, first, second)
    ensures var ab := GetFriendshipStatus(first, second, Found(row));
      var ba := GetFriendshipStatus(second, first, Found(row));
      ab.status.Some? && ba.status.Some? && ba.status.value == Mirror(ab.status.value)
  {
  }

  /** The row the query returns: the first one that links the two users. */
  function FindFriendshipRow(table: seq<FriendshipRow>, a: string, b: string): (r: Option<FriendshipRow>)
    ensures r.Some? ==> r.value in table && Links(r.value, a, b)
    ensures r.None? ==> forall i :: 0 <= i < |table| ==> !Links(table[i], a, b)
  {
    if table == [] then None
    else if Links(table[0], a, b) then Some(table[0])
    else FindFriendshipRow(table[1..], a, b)
  }

  /** The query of GetFriendshipStatus run against a table, with an optional driver failure. */
  function QueryFriendship(table: seq<FriendshipRow>, a: string, b: string, fault: Option<DbError>)
    : (r: RowLookup<FriendshipRow>)
    ensures fault.Some? ==> r == QueryFailed(fault.value)
    ensures r.Found? ==> r.row in table && Links(r.row, a, b)
    ensures fault.None? ==> (r.NoRows? <==> forall i :: 0 <= i < |table| ==> !Links(table[i], a, b))
  {
    if fault.Some? then QueryFailed(fault.value)
    else match FindFriendshipRow(table, a, b)
      case Some(row) => Found(row)
      case None => NoRows
  }

  /**
   * A row read from the table always links the two users, so the
   * "inconsistent pending/blocked state" errors cannot arise from a working
   * query; only an unknown status text can still give an error.
   */
  lemma TableRowsAreConsistent(table: seq<FriendshipRow>, first: string, second: string)
    requires first != "" && second != "" && first != second
    requires forall i :: 0 <= i < |table| ==> table[i].status in {"accepted", "pending", "blocked", "declined"}
    ensures GetFriendshipStatus(first, second, QueryFriendship(table, first, second, None)).err.None?
  {
  }

  predicate IsAcceptedFriendshipOf(row: FriendshipRow, userId: string) {
    (row.requesterId == userId || row.addresseeId == userId) && row.status == "accepted"
  }

  /** The number of rows counted by the COUNT(*) query of CountFriends. */
  function AcceptedFriendships(table: seq<FriendshipRow>, userId: string): (n: nat)
    ensures n <= |table|
    ensures n == 0 <==> forall i :: 0 <= i < |table| ==> !IsAcceptedFriendshipOf(table[i], userId)
  {
    if table == [] then 0
    else (if IsAcceptedFriendshipOf(table[0], userId) then 1 else 0) + AcceptedFriendships(table[1..], userId)
  }

  /** CountFriends: the accepted friendships in which the user is either party. */
  function CountFriends(table: seq<FriendshipRow>, userId: string, fault: Option<DbError>): (r: Result<nat, Error>)
    ensures fault.Some? <==> r.Err?
    ensures r.Ok? ==> r.value <= |table|
    ensures r.Ok? ==> (r.value == 0 <==> forall i :: 0 <= i < |table| ==> !IsAcceptedFriendshipOf(table[i], userId))
  {
    if fault.Some? then Err(Database(fault.value)) else Ok(AcceptedFriendships(table, userId))
  }

  lemma {:induction false} AcceptedFriendshipsAppend(table: seq<FriendshipRow>, row: FriendshipRow, userId: string)
    ensures AcceptedFriendships(table + [row], userId)
      == AcceptedFriendships(table, userId) + (if IsAcceptedFriendshipOf(row, userId) then 1 else 0)
  {
    if table != [] {
      assert (table + [row])[1..] == table[1..] + [row];
      AcceptedFriendshipsAppend(table[1..], row, userId);
    }
  }

  /** Recording one accepted friendship adds one friend to each of its two users. */
  lemma AcceptingCountsForBoth(table: seq<FriendshipRow>, requester: string, addressee: string)
    ensures var t := table + [FriendshipRow(requester, addressee, "accepted")];
      AcceptedFriendships(t, requester) == AcceptedFriendships(table, requester) + 1
      && AcceptedFriendships(t, addressee) == AcceptedFriendships(table, addressee) + 1
  {
    AcceptedFriendshipsAppend(table, FriendshipRow(requester, addressee, "accepted"), requester);
    AcceptedFriendshipsAppend(table, FriendshipRow(requester, addressee, "accepted"), addressee);
  }
}
