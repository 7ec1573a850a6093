/**
 * The database as abstract tables. Each table is the sequence of its rows in
 * storage order, so "the row a single-row query returns" is the first
 * matching row and "rows affected" is the number of matching rows. The
 * unique constraints of the schema are table invariants. A transaction keeps
 * the state it started from, so that rolling back restores it.
 */
module Tables {
  import opened Wrappers
  import opened DbUtils
  import opened FriendshipStore

  /** A row of users; the avatar_source column is selected by the user queries. */
  datatype User = User(
    userId: string,
    username: string,
    email: SqlNullString,
    displayName: SqlNullString,
    avatarUrl: SqlNullString,
    avatarSource: SqlNullString,
    statsPrivacy: string,
    uiTheme: SqlNullString,
    colorTheme: SqlNullString,
    createdAt: int,
    updatedAt: int,
    lastLoginAt: SqlNullTime)

  /** A row of user_provider_identities. */
  datatype ProviderIdentity = ProviderIdentity(
    providerIdentityId: string,
    userId: string,
    providerName: string,
    providerUserId: string,
    providerEmail: SqlNullString,
    providerDisplayName: SqlNullString,
    providerAvatarUrl: SqlNullString,
    createdAt: int,
    updatedAt: int)

  /** A row of games. */
  datatype Game = Game(
    gameId: string,
    sessionId: SqlNullString,
    createdByUserId: string,
    currentScorekeeperUserId: SqlNullString,
    status: string,
    startingDealerGamePlayerId: SqlNullString,
    playerSeatingOrderRandomized: bool,
    createdAt: int,
    updatedAt: int,
    completedAt: SqlNullTime)

  /** A row of game_players; finishing_position is a nullable integer. */
  datatype GamePlayer = GamePlayer(
    gamePlayerId: string,
    gameId: string,
    userId: SqlNullString,
    guestPlayerId: SqlNullString,
    seatingOrder: int,
    finalScore: int,
    finishingPosition: Option<int>)

  /** A row of guest_players. */
  datatype GuestPlayer = GuestPlayer(guestPlayerId: string, displayName: string, createdAt: int)

  /** A row of game_sessions. */
  datatype GameSession = GameSession(
    sessionId: string,
    sessionName: SqlNullString,
    createdByUserId: SqlNullString,
    status: string,
    createdAt: int,
    updatedAt: int,
    completedAt: SqlNullTime)

  /** The content of every table at one moment. */
  datatype Snapshot = Snapshot(
    users: seq<User>,
    identities: seq<ProviderIdentity>,
    games: seq<Game>,
    gamePlayers: seq<GamePlayer>,
    guestPlayers: seq<GuestPlayer>,
    sessions: seq<GameSession>,
    friendships: seq<FriendshipRow>)

  // ---- keys ----

  function UserIds(users: seq<User>): set<string> {
    set u | u in users :: u.userId
  }

  function IdentityIds(identities: seq<ProviderIdentity>): set<string> {
    set pi | pi in identities :: pi.providerIdentityId
  }

  function GameIds(games: seq<Game>): set<string> {
    set g | g in games :: g.gameId
  }

  function GamePlayerIds(players: seq<GamePlayer>): set<string> {
    set p | p in players :: p.gamePlayerId
  }

  function GuestPlayerIds(guests: seq<GuestPlayer>): set<string> {
    set g | g in guests :: g.guestPlayerId
  }

  function SessionIds(sessions: seq<GameSession>): set<string> {
    set s | s in sessions :: s.sessionId
  }

  predicate SameNonNullText(a: SqlNullString, b: SqlNullString) {
    a.valid && b.valid && a.str == b.str
  }

  // ---- constraints ----

  /** Two user rows agree on no key: user_id, uq_users_username, uq_users_email (NULL e-mails never clash). */
  predicate UserKeysDistinct(a: User, b: User) {
    a.userId != b.userId && a.username != b.username && !SameNonNullText(a.email, b.email)
  }

  predicate UsersValid(users: seq<User>) {
    forall i, j :: 0 <= i < j < |users| ==> UserKeysDistinct(users[i], users[j])
  }

  /**
   * Two identity rows agree on no key: the primary key,
   * uq_user_providers_identities_provider (provider, provider user id) and
   * uq_user_providers_identities_user_provider (user, provider).
   */
  predicate IdentityKeysDistinct(a: ProviderIdentity, b: ProviderIdentity) {
    a.providerIdentityId != b.providerIdentityId
    && !(a.providerName == b.providerName && a.providerUserId == b.providerUserId)
    && !(a.userId == b.userId && a.providerName == b.providerName)
  }

  /** The identity keys are distinct and every identity belongs to an existing user. */
  predicate IdentitiesValid(identities: seq<ProviderIdentity>, users: seq<User>) {
    (forall i, j :: 0 <= i < j < |identities| ==> IdentityKeysDistinct(identities[i], identities[j]))
    && (forall i :: 0 <= i < |identities| ==> identities[i].userId in UserIds(users))
  }

  /** Primary keys, uq_game_user and uq_game_guest (NULL ids never clash). */
  predicate GamePlayersValid(players: seq<GamePlayer>) {
    forall i, j :: 0 <= i < j < |players| ==>
      players[i].gamePlayerId != players[j].gamePlayerId
      && !(players[i].gameId == players[j].gameId && SameNonNullText(players[i].userId, players[j].userId))
      && !(players[i].gameId == players[j].gameId && SameNonNullText(players[i].guestPlayerId, players[j].guestPlayerId))
  }

  /**
   * Guest ids are keys; guest display names are distinct because guests are
   * only ever added by find-or-create on the name.
   */
  predicate GuestPlayersValid(guests: seq<GuestPlayer>) {
    forall i, j :: 0 <= i < j < |guests| ==>
      guests[i].guestPlayerId != guests[j].guestPlayerId && guests[i].displayName != guests[j].displayName
  }

  predicate GamesValid(games: seq<Game>) {
    forall i, j :: 0 <= i < j < |games| ==> games[i].gameId != games[j].gameId
  }

  predicate SessionsValid(sessions: seq<GameSession>) {
    forall i, j :: 0 <= i < j < |sessions| ==> sessions[i].sessionId != sessions[j].sessionId
  }

  predicate SnapshotValid(s: Snapshot) {
    UsersValid(s.users) && IdentitiesValid(s.identities, s.users)
    && GamesValid(s.games) && GamePlayersValid(s.gamePlayers)
    && GuestPlayersValid(s.guestPlayers) && SessionsValid(s.sessions)
  }

  /** The tables, and the state an open transaction started from. */
  class Database {
    var users: seq<User>
    var identities: seq<ProviderIdentity>
    var games: seq<Game>
    var gamePlayers: seq<GamePlayer>
    var guestPlayers: seq<GuestPlayer>
    var sessions: seq<GameSession>
    var friendships: seq<FriendshipRow>
    var tx: Option<Snapshot>

    function State(): Snapshot
      reads this
    {
      Snapshot(users, identities, games, gamePlayers, guestPlayers, sessions, friendships)
    }

    ghost predicate Valid()
      reads this
    {
      SnapshotValid(State()) && (tx.Some? ==> SnapshotValid(tx.value))
    }

    constructor (initial: Snapshot)
      requires SnapshotValid(initial)
      ensures Valid() && State() == initial && tx.None?
    {
      users, identities, games := initial.users, initial.identities, initial.games;
      gamePlayers, guestPlayers := initial.gamePlayers, initial.guestPlayers;
      sessions, friendships := initial.sessions, initial.friendships;
      tx := None;
    }

    /** BeginTx: a failure to start leaves no transaction open. */
    method BeginTx(fault: Option<DbError>) returns (err: Option<Error>)
      requires Valid() && tx.None?
      modifies this`tx
      ensures Valid()
      ensures err.Some? <==> fault.Some?
      ensures err.Some? ==> err.value == Database(fault.value) && tx.None?
      ensures err.None? ==> tx == Some(State())
    {
      if fault.Some? {
        return Some(Database(fault.value));
      }
      tx := Some(State());
      return None;
    }

    method Restore(s: Snapshot)
      modifies this`users, this`identities, this`games, this`gamePlayers, this`guestPlayers, this`sessions, this`friendships
      ensures State() == s
    {
      users, identities, games := s.users, s.identities, s.games;
      gamePlayers, guestPlayers := s.gamePlayers, s.guestPlayers;
      sessions, friendships := s.sessions, s.friendships;
    }

    /** Rollback: the tables return to the state the transaction started from. */
    method Rollback()
      requires Valid() && tx.Some?
      modifies this
      ensures Valid() && tx.None?
      ensures State() == old(tx.value)
    {
      Restore(tx.value);
      tx := None;
    }

    /**
     * Commit: the transaction's changes stay; a failed commit leaves the
     * tables as they were at the start of the transaction.
     */
    method Commit(fault: Option<DbError>) returns (err: Option<Error>)
      requires Valid() && tx.Some?
      modifies this
      ensures Valid() && tx.None?
      ensures err.Some? <==> fault.Some?
      ensures fault.None? ==> State() == old(State())
      ensures fault.Some? ==> State() == old(tx.value) && err == Some(Database(fault.value))
    {
      if fault.Some? {
        Restore(tx.value);
        tx := None;
        return Some(Database(fault.value));
      }
      tx := None;
      return None;
    }
  }
}
