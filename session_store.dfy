/**
 * The game-session store: creating a session, listing the active sessions a
 * user played in, and changing a session's status.
 */
module SessionStore {
  import opened Wrappers
  import opened DbUtils
  import opened Tables
  import opened Ordering

  const StatusActive := "active"

  // ---------------------------------------------------------------- CreateGameSession

  /** The row CreateGameSession inserts: active, not completed, empty name and creator stored as NULL. */
  function NewSessionRow(sessionId: string, sessionName: string, createdByUserId: string, now: int): (r: GameSession)
    ensures r.sessionId == sessionId && r.status == StatusActive
    ensures r.sessionName.valid <==> sessionName != ""
    ensures r.createdByUserId.valid <==> createdByUserId != ""
    ensures r.createdAt == now && r.updatedAt == now && !r.completedAt.valid
  {
    GameSession(sessionId, NullString(sessionName), NullString(createdByUserId), StatusActive, now, now, NullInstant)
  }

  /** CreateGameSession's result and the new sessions table; a failed insert leaves the table as it was. */
  function CreateSessionEffect(sessions: seq<GameSession>, sessionName: string, createdByUserId: string,
                               newSessionId: string, now: int, fault: Option<DbError>)
    : (o: (Result<string, Error>, seq<GameSession>))
    ensures o.0.Ok? <==> fault.None?
    ensures o.0.Ok? ==> o.0.value == newSessionId && |o.1| == |sessions| + 1 && o.1[..|sessions|] == sessions
    ensures o.0.Err? ==> o.0 == Err(Database(fault.value)) && o.1 == sessions
  {
    if fault.Some? then (Err(Database(fault.value)), sessions)
    else (Ok(newSessionId), sessions + [NewSessionRow(newSessionId, sessionName, createdByUserId, now)])
  }

  /** The row `WHERE session_id = $1` returns. */
  function FindSession(sessions: seq<GameSession>, sessionId: string): (r: Option<GameSession>)
    ensures r.Some? ==> r.value in sessions && r.value.sessionId == sessionId
    ensures r.None? <==> sessionId !in SessionIds(sessions)
  {
    if sessions == [] then None
    else if sessions[0].sessionId == sessionId then Some(sessions[0])
    else
      assert SessionIds(sessions) == {sessions[0].sessionId} + SessionIds(sessions[1..]) by {
        assert sessions == [sessions[0]] + sessions[1..];
      }
      FindSession(sessions[1..], sessionId)
  }

  lemma {:induction false} SessionByIdIsUnique(sessions: seq<GameSession>, i: int)
    requires SessionsValid(sessions) && 0 <= i < |sessions|
    ensures FindSession(sessions, sessions[i].sessionId) == Some(sessions[i])
  {
    if i > 0 {
      assert sessions[1..][i - 1] == sessions[i];
      SessionByIdIsUnique(sessions[1..], i - 1);
    }
  }

  /** The new session reads back active and not completed, with NULL for an empty name or creator. */
  lemma CreatedSessionReadsBack(sessions: seq<GameSession>, sessionName: string, createdByUserId: string,
                                newSessionId: string, now: int, fault: Option<DbError>)
    requires SessionsValid(sessions) && newSessionId !in SessionIds(sessions)
    ensures var o := CreateSessionEffect(sessions, sessionName, createdByUserId, newSessionId, now, fault);
      SessionsValid(o.1)
      && (o.0.Ok? ==>
            FindSession(o.1, newSessionId).Some?
            && var s := FindSession(o.1, newSessionId).value;
            && s.status == StatusActive && !s.completedAt.valid
            && (s.sessionName.valid <==> sessionName != "") && s.sessionName.str == sessionName
            && (s.createdByUserId.valid <==> createdByUserId != "") && s.createdByUserId.str == createdByUserId
            && s.createdAt == now && s.updatedAt == now)
  {
    var o := CreateSessionEffect(sessions, sessionName, createdByUserId, newSessionId, now, fault);
    if o.0.Ok? {
      assert o.1 == sessions + [NewSessionRow(newSessionId, sessionName, createdByUserId, now)];
      forall i | 0 <= i < |sessions|
        ensures sessions[i].sessionId != newSessionId
      {
        assert sessions[i] in sessions;
      }
      SessionByIdIsUnique(o.1, |sessions|);
    }
  }

  /** CreateGameSession. */
  method CreateGameSession(db: Database, sessionName: string, createdByUserId: string, newSessionId: string,
                           now: int, fault: Option<DbError>)
    returns (r: Result<string, Error>)
    requires db.Valid() && newSessionId !in SessionIds(db.sessions)
    modifies db`sessions
    ensures db.Valid()
    ensures (r, db.sessions) == CreateSessionEffect(old(db.sessions), sessionName, createdByUserId, newSessionId, now, fault)
  {
    if fault.Some? {
      return Err(Database(fault.value));
    }
    CreatedSessionReadsBack(db.sessions, sessionName, createdByUserId, newSessionId, now, fault);
    db.sessions := db.sessions + [GameSession(newSessionId, NullString(sessionName), NullString(createdByUserId),
                                              StatusActive, now, now, NullInstant)];
    r := Ok(newSessionId);
  }

  // ---------------------------------------------------------------- GetActiveSessionsByUserID

  /** A session with the has_active_game flag the query computes for it. */
  datatype ActiveSession = ActiveSession(session: GameSession, hasActiveGame: bool)

  /** `g.session_id = gs.session_id`: a game without a session belongs to none. */
  predicate InSession(g: Game, sessionId: string)
    ensures !g.sessionId.valid ==> !InSession(g, sessionId)
  {
    g.sessionId.valid && g.sessionId.str == sessionId
  }

  /** The user has a seat in some game of the session. */
  predicate PlayedIn(games: seq<Game>, players: seq<GamePlayer>, sessionId: string, userId: string)
    ensures PlayedIn(games, players, sessionId, userId) ==>
      exists p :: p in players && p.userId == SqlNullString(userId, true)
  {
    exists i, j :: 0 <= i < |games| && 0 <= j < |players| && InSession(games[i], sessionId)
      && players[j].gameId == games[i].gameId && players[j].userId.valid && players[j].userId.str == userId
  }

  /** Some game of the session has status 'active'; pending games do not count. */
  predicate HasActiveGame(games: seq<Game>, sessionId: string)
    ensures HasActiveGame(games, sessionId) ==>
      exists g :: g in games && g.sessionId == SqlNullString(sessionId, true) && g.status == StatusActive
  {
    exists i :: 0 <= i < |games| && InSession(games[i], sessionId) && games[i].status == StatusActive
  }

  /** The WHERE clause: the session is active and the user played in it. */
  predicate Qualifies(s: GameSession, games: seq<Game>, players: seq<GamePlayer>, userId: string)
    ensures s.status != StatusActive ==> !Qualifies(s, games, players, userId)
  {
    s.status == StatusActive && PlayedIn(games, players, s.sessionId, userId)
  }

  /** The qualifying sessions in table order, each with its flag. */
  function ActiveRows(sessions: seq<GameSession>, games: seq<Game>, players: seq<GamePlayer>, userId: string)
    : (r: seq<ActiveSession>)
    ensures forall a :: a in r <==>
      a.session in sessions && Qualifies(a.session, games, players, userId)
      && a.hasActiveGame == HasActiveGame(games, a.session.sessionId)
  {
    if sessions == [] then []
    else
      var rest := ActiveRows(sessions[1..], games, players, userId);
      assert forall s :: s in sessions <==> s == sessions[0] || s in sessions[1..] by {
        assert sessions == [sessions[0]] + sessions[1..];
      }
      if Qualifies(sessions[0], games, players, userId)
      then [ActiveSession(sessions[0], HasActiveGame(games, sessions[0].sessionId))] + rest
      else rest
  }

  /** ORDER BY updated_at DESC as a sort key. */
  function NewestFirst(a: ActiveSession): SortKey {
    (-a.session.updatedAt, "")
  }

  /**
   * The rows the query returns. Rows with equal updated_at come in an order
   * the database does not fix; here they keep table order.
   */
  function ActiveSessionsOf(sessions: seq<GameSession>, games: seq<Game>, players: seq<GamePlayer>, userId: string)
    : (r: seq<ActiveSession>)
    ensures multiset(r) == multiset(ActiveRows(sessions, games, players, userId))
  {
    SortBy(ActiveRows(sessions, games, players, userId), NewestFirst)
  }

  /**
   * The result is a reordering of the filtered rows: exactly the active
   * sessions the user played in, each flagged with whether a game of it is
   * active, newest first.
   */
  lemma ActiveSessionsAreTheFilter(sessions: seq<GameSession>, games: seq<Game>, players: seq<GamePlayer>, userId: string)
    ensures var r := ActiveSessionsOf(sessions, games, players, userId);
      && multiset(r) == multiset(ActiveRows(sessions, games, players, userId))
      && (forall a :: a in r <==>
            a.session in sessions && Qualifies(a.session, games, players, userId)
            && a.hasActiveGame == HasActiveGame(games, a.session.sessionId))
      && (forall i, j :: 0 <= i <= j < |r| ==> r[i].session.updatedAt >= r[j].session.updatedAt)
  {
    var rows := ActiveRows(sessions, games, players, userId);
    var r := SortBy(rows, NewestFirst);
    forall a
      ensures a in r <==> a in rows
    {
      assert a in r <==> a in multiset(r);
      assert a in rows <==> a in multiset(rows);
    }
    forall i, j | 0 <= i <= j < |r|
      ensures r[i].session.updatedAt >= r[j].session.updatedAt
    {
      SortedPairwise(r, NewestFirst, i, j);
    }
  }

  /** A failure of the query, of a row scan or of the row iteration. */
  datatype ListFaults = ListFaults(query: Option<DbError>, scanAt: Option<(nat, DbError)>, iterate: Option<DbError>)

  /**
   * GetActiveSessionsByUserID: the rows are read one by one into the result;
   * any failure discards what was read. The doc comment at session.go:66-67
   * speaks of games that are 'pending' or 'active', but the flag's subquery
   * (session.go:89) tests `IN ('active')` only; the model follows the query.
   */
  method GetActiveSessionsByUserID(db: Database, userId: string, fx: ListFaults)
    returns (r: Result<seq<ActiveSession>, Error>)
    ensures fx.query.Some? ==> r == Err(Database(fx.query.value))
    ensures fx.query.None? && fx.scanAt.Some?
              && fx.scanAt.value.0 < |ActiveSessionsOf(db.sessions, db.games, db.gamePlayers, userId)| ==>
      r == Err(Database(fx.scanAt.value.1))
    ensures r.Ok? <==>
      fx.query.None? && fx.iterate.None?
      && (fx.scanAt.None? || fx.scanAt.value.0 >= |ActiveSessionsOf(db.sessions, db.games, db.gamePlayers, userId)|)
    ensures r.Ok? ==> r.value == ActiveSessionsOf(db.sessions, db.games, db.gamePlayers, userId)
  {
    if fx.query.Some? {
      return Err(Database(fx.query.value));
    }
    var rows := ActiveSessionsOf(db.sessions, db.games, db.gamePlayers, userId);
    var result: seq<ActiveSession> := [];
    var k := 0;
    while k < |rows|
      invariant 0 <= k <= |rows|
      invariant result == rows[..k]
      invariant fx.scanAt.Some? ==> fx.scanAt.value.0 >= k
    {
      if fx.scanAt.Some? && fx.scanAt.value.0 == k {
        return Err(Database(fx.scanAt.value.1));
      }
      result := result + [rows[k]];
      k := k + 1;
    }
    assert result == rows;
    if fx.iterate.Some? {
      return Err(Database(fx.iterate.value));
    }
    r := Ok(result);
  }

  // ---------------------------------------------------------------- UpdateSessionStatus

  /** `SET status = $1, completed_at = $2, updated_at = NOW() WHERE session_id = $3`. */
  function SetSessionStatus(sessions: seq<GameSession>, sessionId: string, status: string, completedAt: SqlNullTime,
                            now: int): (r: seq<GameSession>)
    ensures |r| == |sessions|
    ensures forall i :: 0 <= i < |sessions| ==>
      r[i] == if sessions[i].sessionId == sessionId
              then sessions[i].(status := status, completedAt := completedAt, updatedAt := now)
              else sessions[i]
  {
    seq(|sessions|, i requires 0 <= i < |sessions| =>
      if sessions[i].sessionId == sessionId
      then sessions[i].(status := status, completedAt := completedAt, updatedAt := now)
      else sessions[i])
  }

  /** The rows the UPDATE matches: the rows affected. */
  function RowsWithSessionId(sessions: seq<GameSession>, sessionId: string): (n: nat)
    ensures n == 0 <==> sessionId !in SessionIds(sessions)
  {
    if sessions == [] then 0
    else
      assert SessionIds(sessions) == {sessions[0].sessionId} + SessionIds(sessions[1..]) by {
        assert sessions == [sessions[0]] + sessions[1..];
      }
      (if sessions[0].sessionId == sessionId then 1 else 0) + RowsWithSessionId(sessions[1..], sessionId)
  }

  /**
   * UpdateSessionStatus's result and the new sessions table: a driver
   * failure changes nothing; no matching row is ErrSessionNotFound.
   */
  function UpdateSessionEffect(sessions: seq<GameSession>, sessionId: string, status: string,
                               completedAt: SqlNullTime, now: int, fault: Option<DbError>)
    : (o: (Option<Error>, seq<GameSession>))
    ensures fault.Some? ==> o == (Some(Database(fault.value)), sessions)
    ensures fault.None? && sessionId !in SessionIds(sessions) ==> o.0 == Some(SessionNotFound)
    ensures o.0.None? <==> fault.None? && sessionId in SessionIds(sessions)
  {
    if fault.Some? then (Some(Database(fault.value)), sessions)
    else
      var updated := SetSessionStatus(sessions, sessionId, status, completedAt, now);
      if RowsWithSessionId(sessions, sessionId) == 0 then (Some(SessionNotFound), updated)
      else (None, updated)
  }

  /**
   * After a successful update the session reads back with the new status and
   * completion time; ids and every other session are unchanged.
   */
  lemma UpdatedSessionReadsBack(sessions: seq<GameSession>, sessionId: string, status: string,
                                completedAt: SqlNullTime, now: int, fault: Option<DbError>)
    requires SessionsValid(sessions)
    ensures var o := UpdateSessionEffect(sessions, sessionId, status, completedAt, now, fault);
      && SessionsValid(o.1) && SessionIds(o.1) == SessionIds(sessions)
      && (o.0.None? ==>
            FindSession(o.1, sessionId).Some?
            && FindSession(o.1, sessionId).value.status == status
            && FindSession(o.1, sessionId).value.completedAt == completedAt
            && FindSession(o.1, sessionId).value.updatedAt == now)
      && (forall i :: 0 <= i < |sessions| && sessions[i].sessionId != sessionId ==> o.1[i] == sessions[i])
      && (o.0.Some? ==> o.1 == sessions)
  {
    if fault.None? {
      var u := SetSessionStatus(sessions, sessionId, status, completedAt, now);
      SetStatusKeepsKeys(sessions, sessionId, status, completedAt, now);
      if sessionId in SessionIds(sessions) {
        var k :| 0 <= k < |sessions| && sessions[k].sessionId == sessionId;
        SessionByIdIsUnique(u, k);
      }
    }
  }

  /** Setting a status keeps the ids, hence the key constraint; with no row matched nothing changes. */
  lemma SetStatusKeepsKeys(sessions: seq<GameSession>, sessionId: string, status: string,
                           completedAt: SqlNullTime, now: int)
    requires SessionsValid(sessions)
    ensures var u := SetSessionStatus(sessions, sessionId, status, completedAt, now);
      SessionsValid(u) && SessionIds(u) == SessionIds(sessions)
      && (sessionId !in SessionIds(sessions) ==> u == sessions)
  {
    var u := SetSessionStatus(sessions, sessionId, status, completedAt, now);
    forall id | id in SessionIds(sessions)
      ensures id in SessionIds(u)
    {
      var k :| 0 <= k < |sessions| && sessions[k].sessionId == id;
      assert u[k].sessionId == id;
    }
    assert SessionsValid(u) by {
      forall i, j | 0 <= i < j < |u|
        ensures u[i].sessionId != u[j].sessionId
      {
      }
    }
    if sessionId !in SessionIds(sessions) {
      assert u == sessions by {
        forall i | 0 <= i < |sessions|
          ensures u[i] == sessions[i]
        {
          assert sessions[i] in sessions;
        }
      }
    }
  }

  /** UpdateSessionStatus. */
  method UpdateSessionStatus(db: Database, sessionId: string, status: string, completedAt: SqlNullTime, now: int,
                             fault: Option<DbError>)
    returns (err: Option<Error>)
    requires db.Valid()
    modifies db`sessions
    ensures db.Valid()
    ensures (err, db.sessions) == UpdateSessionEffect(old(db.sessions), sessionId, status, completedAt, now, fault)
  {
    if fault.Some? {
      return Some(Database(fault.value));
    }
    UpdatedSessionReadsBack(db.sessions, sessionId, status, completedAt, now, fault);
    var rowsAffected := RowsWithSessionId(db.sessions, sessionId);
    db.sessions := SetSessionStatus(db.sessions, sessionId, status, completedAt, now);
    if rowsAffected == 0 {
      return Some(SessionNotFound);
    }
    err := None;
  }
}
