/**
 * The statistics queries: a user's games played and won, and the site-wide
 * summary counts over the last month. COUNT(DISTINCT game_id) is the size of
 * a set of game ids; COUNT(*) is a number of rows.
 */
module Stats {
  import opened Wrappers
  import opened DbUtils
  import opened Tables

  const StatusCompleted := "completed"

  /** ProfileStats. */
  datatype ProfileStats = ProfileStats(totalGamesPlayed: nat, totalWins: nat)

  /** The join row (g, gp) of the games-played query: gp seats the user in g, and g is completed. */
  predicate PlayedCompleted(g: Game, p: GamePlayer, userId: string)
    ensures PlayedCompleted(g, p, userId) ==> p.userId.valid
  {
    g.gameId == p.gameId && p.userId.valid && p.userId.str == userId && g.status == StatusCompleted
  }

  /** The wins query adds `gp.finishing_position = 1` to the same join. */
  predicate WonCompleted(g: Game, p: GamePlayer, userId: string)
    ensures WonCompleted(g, p, userId) ==> PlayedCompleted(g, p, userId)
  {
    PlayedCompleted(g, p, userId) && p.finishingPosition == Some(1)
  }

  /** The distinct completed games the user has a seat in. */
  function GamesPlayed(games: seq<Game>, players: seq<GamePlayer>, userId: string): (r: set<string>)
    ensures forall id :: id in r ==>
      (exists g :: g in games && g.gameId == id && g.status == StatusCompleted)
      && (exists p :: p in players && p.gameId == id && p.userId == SqlNullString(userId, true))
  {
    set i, j | 0 <= i < |games| && 0 <= j < |players| && PlayedCompleted(games[i], players[j], userId) :: games[i].gameId
  }

  /** The distinct completed games the user finished first in. */
  function GamesWon(games: seq<Game>, players: seq<GamePlayer>, userId: string): (r: set<string>)
    ensures forall id :: id in r ==>
      exists p :: p in players && p.gameId == id && p.userId == SqlNullString(userId, true) && p.finishingPosition == Some(1)
  {
    set i, j | 0 <= i < |games| && 0 <= j < |players| && WonCompleted(games[i], players[j], userId) :: games[i].gameId
  }

  /** Every game won is a game played. */
  lemma WonIsPlayed(games: seq<Game>, players: seq<GamePlayer>, userId: string)
    ensures GamesWon(games, players, userId) <= GamesPlayed(games, players, userId)
  {
  }

  /** A subset is no larger than its superset. */
  lemma {:induction false} SubsetCardinality(a: set<string>, b: set<string>)
    requires a <= b
    ensures |a| <= |b|
    decreases |b|
  {
    if a != {} {
      var x :| x in a;
      SubsetCardinality(a - {x}, b - {x});
    }
  }

  /**
   * GetUserBasicStats: the two counts, or the error of the first query that
   * fails and no stats.
   */
  function GetUserBasicStats(games: seq<Game>, players: seq<GamePlayer>, userId: string,
                             playedFault: Option<DbError>, wonFault: Option<DbError>): (r: Result<ProfileStats, Error>)
    ensures playedFault.Some? ==> r == Err(Database(playedFault.value))
    ensures playedFault.None? && wonFault.Some? ==> r == Err(Database(wonFault.value))
    ensures r.Ok? <==> playedFault.None? && wonFault.None?
    ensures r.Ok? ==>
      r.value.totalGamesPlayed == |GamesPlayed(games, players, userId)|
      && r.value.totalWins == |GamesWon(games, players, userId)|
      && r.value.totalWins <= r.value.totalGamesPlayed
  {
    if playedFault.Some? then Err(Database(playedFault.value))
    else if wonFault.Some? then Err(Database(wonFault.value))
    else
      WonIsPlayed(games, players, userId);
      SubsetCardinality(GamesWon(games, players, userId), GamesPlayed(games, players, userId));
      Ok(ProfileStats(|GamesPlayed(games, players, userId)|, |GamesWon(games, players, userId)|))
  }

  /** A game counts once however many seats the user has in it. */
  lemma SeatsDoNotMultiplyGames(games: seq<Game>, players: seq<GamePlayer>, userId: string, p: GamePlayer)
    requires p.gameId in GamesPlayed(games, players, userId)
    ensures GamesPlayed(games, players + [p], userId) == GamesPlayed(games, players, userId)
  {
    var players' := players + [p];
    forall id | id in GamesPlayed(games, players', userId)
      ensures id in GamesPlayed(games, players, userId)
    {
      var i, j :| 0 <= i < |games| && 0 <= j < |players'| && PlayedCompleted(games[i], players'[j], userId)
        && games[i].gameId == id;
      if j < |players| {
        assert players[j] == players'[j];
      }
    }
    forall id | id in GamesPlayed(games, players, userId)
      ensures id in GamesPlayed(games, players', userId)
    {
      var i, j :| 0 <= i < |games| && 0 <= j < |players| && PlayedCompleted(games[i], players[j], userId)
        && games[i].gameId == id;
      assert players'[j] == players[j];
    }
  }

  // ---------------------------------------------------------------- site-wide summary

  datatype SiteWideSummaryStats = SiteWideSummaryStats(
    totalPlayers: nat,
    sessionsThisMonth: nat,
    gamesThisMonth: nat,
    newUsersThisMonth: nat)

  /** `created_at >= $1 AND created_at <= $2`: both ends are inside. */
  predicate InWindow(t: int, from: int, to: int) {
    from <= t <= to
  }

  function UsersCreatedIn(users: seq<User>, from: int, to: int): (n: nat)
    ensures n <= |users|
    ensures n == 0 <==> forall i :: 0 <= i < |users| ==> !InWindow(users[i].createdAt, from, to)
  {
    if users == [] then 0
    else (if InWindow(users[0].createdAt, from, to) then 1 else 0) + UsersCreatedIn(users[1..], from, to)
  }

  function SessionsCreatedIn(sessions: seq<GameSession>, from: int, to: int): (n: nat)
    ensures n <= |sessions|
    ensures n == 0 <==> forall i :: 0 <= i < |sessions| ==> !InWindow(sessions[i].createdAt, from, to)
  {
    if sessions == [] then 0
    else (if InWindow(sessions[0].createdAt, from, to) then 1 else 0) + SessionsCreatedIn(sessions[1..], from, to)
  }

  function GamesCreatedIn(games: seq<Game>, from: int, to: int): (n: nat)
    ensures n <= |games|
    ensures n == 0 <==> forall i :: 0 <= i < |games| ==> !InWindow(games[i].createdAt, from, to)
  {
    if games == [] then 0
    else (if InWindow(games[0].createdAt, from, to) then 1 else 0) + GamesCreatedIn(games[1..], from, to)
  }

  /** The four faults of the summary queries, in the order they run. */
  datatype SummaryFaults = SummaryFaults(players: Option<DbError>, sessions: Option<DbError>,
                                         games: Option<DbError>, newUsers: Option<DbError>)

  predicate NoSummaryFault(fx: SummaryFaults) {
    fx.players.None? && fx.sessions.None? && fx.games.None? && fx.newUsers.None?
  }

  /** The fault of the first failing summary query. */
  function FirstSummaryFault(fx: SummaryFaults): (e: DbError)
    requires !NoSummaryFault(fx)
  {
    if fx.players.Some? then fx.players.value
    else if fx.sessions.Some? then fx.sessions.value
    else if fx.games.Some? then fx.games.value
    else fx.newUsers.value
  }

  /**
   * GetSiteWideSummaryStats: the window is [oneMonthAgo, now], where
   * `oneMonthAgo` is the current time moved back one calendar month.
   */
  function GetSiteWideSummaryStats(s: Snapshot, now: int, oneMonthAgo: int, fx: SummaryFaults)
    : (r: Result<SiteWideSummaryStats, Error>)
    ensures r.Ok? <==> NoSummaryFault(fx)
    ensures r.Err? ==> r.error == Database(FirstSummaryFault(fx))
    ensures r.Ok? ==>
      r.value.totalPlayers == |s.users|
      && r.value.newUsersThisMonth <= r.value.totalPlayers
      && r.value.sessionsThisMonth <= |s.sessions| && r.value.gamesThisMonth <= |s.games|
    ensures r.Ok? ==>
      r.value.sessionsThisMonth == SessionsCreatedIn(s.sessions, oneMonthAgo, now)
      && r.value.gamesThisMonth == GamesCreatedIn(s.games, oneMonthAgo, now)
      && r.value.newUsersThisMonth == UsersCreatedIn(s.users, oneMonthAgo, now)
  {
    if fx.players.Some? then Err(Database(fx.players.value))
    else if fx.sessions.Some? then Err(Database(fx.sessions.value))
    else if fx.games.Some? then Err(Database(fx.games.value))
    else if fx.newUsers.Some? then Err(Database(fx.newUsers.value))
    else Ok(SiteWideSummaryStats(|s.users|, SessionsCreatedIn(s.sessions, oneMonthAgo, now),
                                 GamesCreatedIn(s.games, oneMonthAgo, now), UsersCreatedIn(s.users, oneMonthAgo, now)))
  }

  /**
   * The window includes both of its ends: a user created exactly one month
   * ago and one created right now both count, one created earlier or later
   * does not.
   */
  lemma {:induction false} NewUserCountIsInclusive(users: seq<User>, u: User, from: int, to: int)
    ensures UsersCreatedIn(users + [u], from, to) == UsersCreatedIn(users, from, to) + (if from <= u.createdAt <= to then 1 else 0)
  {
    if users != [] {
      assert (users + [u])[1..] == users[1..] + [u];
      NewUserCountIsInclusive(users[1..], u, from, to);
    }
  }

  lemma {:induction false} SessionCountIsInclusive(sessions: seq<GameSession>, x: GameSession, from: int, to: int)
    ensures SessionsCreatedIn(sessions + [x], from, to)
      == SessionsCreatedIn(sessions, from, to) + (if from <= x.createdAt <= to then 1 else 0)
  {
    if sessions != [] {
      assert (sessions + [x])[1..] == sessions[1..] + [x];
      SessionCountIsInclusive(sessions[1..], x, from, to);
    }
  }

  lemma {:induction false} GameCountIsInclusive(games: seq<Game>, g: Game, from: int, to: int)
    ensures GamesCreatedIn(games + [g], from, to) == GamesCreatedIn(games, from, to) + (if from <= g.createdAt <= to then 1 else 0)
  {
    if games != [] {
      assert (games + [g])[1..] == games[1..] + [g];
      GameCountIsInclusive(games[1..], g, from, to);
    }
  }
}
