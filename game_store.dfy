/**
 * The game store: creating games, find-or-create of guest players, seating
 * players in a game under the uniqueness of (game, user) and (game, guest),
 * and reading a game back. As in the user store, each update has an effect
 * function and a method on the database proved to have exactly that effect.
 */
module GameStore {
  import opened Wrappers
  import opened DbUtils
  import opened Tables

  const PlayerConstraints: map<string, Error> :=
    map["uq_game_user" := PlayerAlreadyInGame, "uq_game_guest" := PlayerAlreadyInGame]

  /** A pointer-to-string argument as a column value: nil is NULL, otherwise NullString of the text. */
  function NullablePointer(p: Option<string>): (r: SqlNullString)
    ensures r.valid <==> p.Some? && p.value != ""
    ensures p.Some? ==> r == NullString(p.value)
  {
    if p.Some? then NullString(p.value) else NullText
  }

  // ---------------------------------------------------------------- GetGameByID

  /** The row `WHERE game_id = $1` returns. */
  function FindGame(games: seq<Game>, gameId: string): (r: Option<Game>)
    ensures r.Some? ==> r.value in games && r.value.gameId == gameId
    ensures r.None? <==> gameId !in GameIds(games)
  {
    if games == [] then None
    else if games[0].gameId == gameId then Some(games[0])
    else
      assert GameIds(games) == {games[0].gameId} + GameIds(games[1..]) by {
        assert games == [games[0]] + games[1..];
      }
      FindGame(games[1..], gameId)
  }

  /** GetGameByID: no row is ErrGameNotFound; a query failure is passed on. */
  function GetGameByID(games: seq<Game>, gameId: string, fault: Option<DbError>): (r: Result<Game, Error>)
    ensures r.Ok? <==> fault.None? && gameId in GameIds(games)
    ensures r.Ok? ==> r.value in games && r.value.gameId == gameId
    ensures fault.None? && gameId !in GameIds(games) ==> r == Err(GameNotFound)
    ensures fault.Some? ==> r == Err(Database(fault.value))
  {
    if fault.Some? then Err(Database(fault.value))
    else match FindGame(games, gameId)
      case Some(g) => Ok(g)
      case None => Err(GameNotFound)
  }

  /** Under the primary key the game found by id is the only one with that id. */
  lemma {:induction false} GameByIdIsUnique(games: seq<Game>, i: int)
    requires GamesValid(games) && 0 <= i < |games|
    ensures FindGame(games, games[i].gameId) == Some(games[i])
  {
    if i > 0 {
      assert games[1..][i - 1] == games[i];
      GameByIdIsUnique(games[1..], i - 1);
    }
  }

  // ---------------------------------------------------------------- CreateGame

  /** The row CreateGame inserts: no starting dealer, not completed, both timestamps the insertion time. */
  function NewGameRow(gameId: string, sessionId: Option<string>, createdByUserId: string, scorekeeperUserId: string,
                      status: string, randomized: bool, now: int): (r: Game)
    ensures r.gameId == gameId && r.createdByUserId == createdByUserId && r.status == status
    ensures r.sessionId.valid <==> sessionId.Some? && sessionId.value != ""
    ensures r.currentScorekeeperUserId.valid <==> scorekeeperUserId != ""
    ensures r.currentScorekeeperUserId.str == scorekeeperUserId
    ensures !r.startingDealerGamePlayerId.valid && r.playerSeatingOrderRandomized == randomized
    ensures r.createdAt == now && r.updatedAt == now && !r.completedAt.valid
  {
    Game(gameId, NullablePointer(sessionId), createdByUserId, NullString(scorekeeperUserId), status,
         NullText, randomized, now, now, NullInstant)
  }

  /** CreateGame's result and the new games table; a failed insert leaves the table as it was. */
  function CreateGameEffect(games: seq<Game>, sessionId: Option<string>, createdByUserId: string,
                            scorekeeperUserId: string, status: string, randomized: bool,
                            newGameId: string, now: int, fault: Option<DbError>)
    : (o: (Result<string, Error>, seq<Game>))
    ensures o.0.Ok? <==> fault.None?
    ensures o.0.Ok? ==> o.0.value == newGameId && |o.1| == |games| + 1 && o.1[..|games|] == games
    ensures o.0.Err? ==> o.0 == Err(Database(fault.value)) && o.1 == games
  {
    if fault.Some? then (Err(Database(fault.value)), games)
    else (Ok(newGameId), games + [NewGameRow(newGameId, sessionId, createdByUserId, scorekeeperUserId, status, randomized, now)])
  }

  /**
   * Round trip: the created game reads back with the values passed in. A nil
   * or empty session id and an empty scorekeeper id are NULL; the starting
   * dealer and completed_at are NULL.
   */
  lemma CreatedGameReadsBack(games: seq<Game>, sessionId: Option<string>, createdByUserId: string,
                             scorekeeperUserId: string, status: string, randomized: bool,
                             newGameId: string, now: int, fault: Option<DbError>)
    requires GamesValid(games) && newGameId !in GameIds(games)
    ensures var o := CreateGameEffect(games, sessionId, createdByUserId, scorekeeperUserId, status, randomized,
                                      newGameId, now, fault);
      GamesValid(o.1)
      && (o.0.Ok? ==>
            GameIds(o.1) == GameIds(games) + {newGameId}
            && GetGameByID(o.1, newGameId, None).Ok?
            && var g := GetGameByID(o.1, newGameId, None).value;
            && g.createdByUserId == createdByUserId && g.status == status
            && g.playerSeatingOrderRandomized == randomized
            && (g.sessionId.valid <==> sessionId.Some? && sessionId.value != "")
            && (g.sessionId.valid ==> g.sessionId.str == sessionId.value)
            && (g.currentScorekeeperUserId.valid <==> scorekeeperUserId != "")
            && g.currentScorekeeperUserId.str == scorekeeperUserId
            && !g.startingDealerGamePlayerId.valid && !g.completedAt.valid
            && g.createdAt == now && g.updatedAt == now)
  {
    var o := CreateGameEffect(games, sessionId, createdByUserId, scorekeeperUserId, status, randomized,
                              newGameId, now, fault);
    if o.0.Ok? {
      var row := NewGameRow(newGameId, sessionId, createdByUserId, scorekeeperUserId, status, randomized, now);
      assert o.1 == games + [row];
      forall i | 0 <= i < |games|
        ensures games[i].gameId != newGameId
      {
        assert games[i] in games;
      }
      GameByIdIsUnique(o.1, |games|);
    }
  }

  /** CreateGame. */
  method CreateGame(db: Database, sessionId: Option<string>, createdByUserId: string, scorekeeperUserId: string,
                    status: string, randomized: bool, newGameId: string, now: int, fault: Option<DbError>)
    returns (r: Result<string, Error>)
    requires db.Valid() && newGameId !in GameIds(db.games)
    modifies db`games
    ensures db.Valid()
    ensures (r, db.games) == CreateGameEffect(old(db.games), sessionId, createdByUserId, scorekeeperUserId, status,
                                              randomized, newGameId, now, fault)
  {
    var sqlSessionId := NullText;
    if sessionId.Some? {
      sqlSessionId := NullString(sessionId.value);
    }
    if fault.Some? {
      return Err(Database(fault.value));
    }
    CreatedGameReadsBack(db.games, sessionId, createdByUserId, scorekeeperUserId, status, randomized, newGameId, now, fault);
    db.games := db.games + [Game(newGameId, sqlSessionId, createdByUserId, NullString(scorekeeperUserId), status,
                                 NullText, randomized, now, now, NullInstant)];
    r := Ok(newGameId);
  }

  // ---------------------------------------------------------------- FindOrCreateGuestPlayer

  /** The row `WHERE display_name = $1` returns. */
  function FindGuestByName(guests: seq<GuestPlayer>, displayName: string): (r: Option<GuestPlayer>)
    ensures r.Some? ==> r.value in guests && r.value.displayName == displayName
    ensures r.None? <==> forall i :: 0 <= i < |guests| ==> guests[i].displayName != displayName
  {
    if guests == [] then None
    else if guests[0].displayName == displayName then Some(guests[0])
    else FindGuestByName(guests[1..], displayName)
  }

  /** The guest with that display name, when there is one. */
  predicate GuestNamed(guests: seq<GuestPlayer>, guestId: string, displayName: string) {
    exists i :: 0 <= i < |guests| && guests[i].guestPlayerId == guestId && guests[i].displayName == displayName
  }

  /**
   * FindOrCreateGuestPlayer's result and the new guest table: an existing
   * guest of that name is returned as it is; otherwise exactly one guest is
   * inserted. Either query failing leaves the table as it was.
   */
  function FindOrCreateGuestEffect(guests: seq<GuestPlayer>, displayName: string, newGuestId: string, now: int,
                                   findFault: Option<DbError>, createFault: Option<DbError>)
    : (o: (Result<string, Error>, seq<GuestPlayer>))
    ensures o.0.Ok? ==> GuestNamed(o.1, o.0.value, displayName)
    ensures o.1 == guests || o.1 == guests + [GuestPlayer(newGuestId, displayName, now)]
    ensures o.1 != guests <==> findFault.None? && createFault.None? && FindGuestByName(guests, displayName).None?
    ensures o.0.Err? <==> findFault.Some? || (FindGuestByName(guests, displayName).None? && createFault.Some?)
    ensures findFault.None? && FindGuestByName(guests, displayName).Some? ==>
      o == (Ok(FindGuestByName(guests, displayName).value.guestPlayerId), guests)
  {
    if findFault.Some? then (Err(Database(findFault.value)), guests)
    else match FindGuestByName(guests, displayName)
      case Some(g) =>
        assert g == guests[IndexOfGuest(guests, g)];
        (Ok(g.guestPlayerId), guests)
      case None =>
        if createFault.Some? then (Err(Database(createFault.value)), guests)
        else
          var grown := guests + [GuestPlayer(newGuestId, displayName, now)];
          assert grown[|guests|] == GuestPlayer(newGuestId, displayName, now);
          (Ok(newGuestId), grown)
  }

  /** The position of a row of the table. */
  function IndexOfGuest(guests: seq<GuestPlayer>, g: GuestPlayer): (i: nat)
    requires g in guests
    ensures i < |guests| && guests[i] == g
  {
    if guests[0] == g then 0 else 1 + IndexOfGuest(guests[1..], g)
  }

  /** Find-or-create keeps guest ids distinct and guest names distinct. */
  lemma FindOrCreateKeepsGuestsValid(guests: seq<GuestPlayer>, displayName: string, newGuestId: string, now: int,
                                     findFault: Option<DbError>, createFault: Option<DbError>)
    requires GuestPlayersValid(guests) && newGuestId !in GuestPlayerIds(guests)
    ensures GuestPlayersValid(FindOrCreateGuestEffect(guests, displayName, newGuestId, now, findFault, createFault).1)
  {
    var o := FindOrCreateGuestEffect(guests, displayName, newGuestId, now, findFault, createFault);
    if o.1 != guests {
      forall i | 0 <= i < |guests|
        ensures guests[i].guestPlayerId != newGuestId && guests[i].displayName != displayName
      {
        assert guests[i] in guests;
      }
    }
  }

  /**
   * Calling again with the same name returns the same guest and inserts
   * nothing, whatever id the second call would have used.
   */
  lemma FindOrCreateIsIdempotent(guests: seq<GuestPlayer>, displayName: string, newGuestId: string, now: int,
                                 findFault: Option<DbError>, createFault: Option<DbError>,
                                 newGuestId': string, now': int, createFault': Option<DbError>)
    requires GuestPlayersValid(guests) && newGuestId !in GuestPlayerIds(guests)
    requires FindOrCreateGuestEffect(guests, displayName, newGuestId, now, findFault, createFault).0.Ok?
    ensures var o := FindOrCreateGuestEffect(guests, displayName, newGuestId, now, findFault, createFault);
      FindOrCreateGuestEffect(o.1, displayName, newGuestId', now', None, createFault') == o
  {
    var o := FindOrCreateGuestEffect(guests, displayName, newGuestId, now, findFault, createFault);
    FindOrCreateKeepsGuestsValid(guests, displayName, newGuestId, now, findFault, createFault);
    var i :| 0 <= i < |o.1| && o.1[i].guestPlayerId == o.0.value && o.1[i].displayName == displayName;
    GuestByNameIsUnique(o.1, i);
  }

  /** Under distinct names the guest found by name is the only one with that name. */
  lemma {:induction false} GuestByNameIsUnique(guests: seq<GuestPlayer>, i: int)
    requires GuestPlayersValid(guests) && 0 <= i < |guests|
    ensures FindGuestByName(guests, guests[i].displayName) == Some(guests[i])
  {
    if i > 0 {
      assert guests[1..][i - 1] == guests[i];
      GuestByNameIsUnique(guests[1..], i - 1);
    }
  }

  /** FindOrCreateGuestPlayer: the lookup first, the insert only when no guest of that name exists. */
  method FindOrCreateGuestPlayer(db: Database, displayName: string, newGuestId: string, now: int,
                                 findFault: Option<DbError>, createFault: Option<DbError>)
    returns (r: Result<string, Error>)
    requires db.Valid() && newGuestId !in GuestPlayerIds(db.guestPlayers)
    modifies db`guestPlayers
    ensures db.Valid()
    ensures (r, db.guestPlayers) == FindOrCreateGuestEffect(old(db.guestPlayers), displayName, newGuestId, now,
                                                            findFault, createFault)
  {
    FindOrCreateKeepsGuestsValid(db.guestPlayers, displayName, newGuestId, now, findFault, createFault);
    if findFault.Some? {
      return Err(Database(findFault.value));
    }
    var found := FindGuestByName(db.guestPlayers, displayName);
    if found.Some? {
      return Ok(found.value.guestPlayerId);
    }
    if createFault.Some? {
      return Err(Database(createFault.value));
    }
    db.guestPlayers := db.guestPlayers + [GuestPlayer(newGuestId, displayName, now)];
    r := Ok(newGuestId);
  }

  // ---------------------------------------------------------------- AddPlayerToGame

  /** The row AddPlayerToGame inserts: the final score starts at 0 and there is no finishing position. */
  function NewPlayerRow(gamePlayerId: string, gameId: string, userId: Option<string>, guestPlayerId: Option<string>,
                        seatingOrder: int): (r: GamePlayer)
    ensures r.gamePlayerId == gamePlayerId && r.gameId == gameId && r.seatingOrder == seatingOrder
    ensures r.userId.valid <==> userId.Some? && userId.value != ""
    ensures r.guestPlayerId.valid <==> guestPlayerId.Some? && guestPlayerId.value != ""
    ensures r.finalScore == 0 && r.finishingPosition.None?
  {
    GamePlayer(gamePlayerId, gameId, NullablePointer(userId), NullablePointer(guestPlayerId), seatingOrder, 0, None)
  }

  /** uq_game_user: the game already seats that (non-NULL) user. */
  predicate UserSeated(players: seq<GamePlayer>, gameId: string, userId: SqlNullString) {
    exists i :: 0 <= i < |players| && players[i].gameId == gameId && SameNonNullText(players[i].userId, userId)
  }

  /** uq_game_guest: the game already seats that (non-NULL) guest. */
  predicate GuestSeated(players: seq<GamePlayer>, gameId: string, guestPlayerId: SqlNullString) {
    exists i :: 0 <= i < |players| && players[i].gameId == gameId && SameNonNullText(players[i].guestPlayerId, guestPlayerId)
  }

  /** The unique constraint the insert violates, checked in index order. */
  function PlayerInsertViolation(players: seq<GamePlayer>, row: GamePlayer): Option<DbError> {
    if UserSeated(players, row.gameId, row.userId) then Some(PgError(UniqueViolationCode, "uq_game_user", ""))
    else if GuestSeated(players, row.gameId, row.guestPlayerId) then Some(PgError(UniqueViolationCode, "uq_game_guest", ""))
    else None
  }

  /**
   * AddPlayerToGame's result and the new game_players table. A player the
   * game already seats is ErrPlayerAlreadyInGame and adds nothing.
   */
  function AddPlayerEffect(players: seq<GamePlayer>, gameId: string, userId: Option<string>,
                           guestPlayerId: Option<string>, seatingOrder: int, newPlayerId: string,
                           fault: Option<DbError>)
    : (o: (Result<string, Error>, seq<GamePlayer>))
    ensures var row := NewPlayerRow(newPlayerId, gameId, userId, guestPlayerId, seatingOrder);
      && (o.0.Ok? <==>
            fault.None? && !UserSeated(players, gameId, row.userId) && !GuestSeated(players, gameId, row.guestPlayerId))
      && (o.0.Ok? ==> o == (Ok(newPlayerId), players + [row]))
      && (o.0.Err? ==> o.1 == players)
      && (fault.None? && (UserSeated(players, gameId, row.userId) || GuestSeated(players, gameId, row.guestPlayerId)) ==>
            o.0 == Err(PlayerAlreadyInGame))
      && (fault.Some? ==> o.0 == Err(HandlePgError(fault.value, PlayerConstraints).1))
  {
    var row := NewPlayerRow(newPlayerId, gameId, userId, guestPlayerId, seatingOrder);
    var dbErr := if fault.Some? then fault else PlayerInsertViolation(players, row);
    if dbErr.Some? then
      assert "uq_game_user" in PlayerConstraints && "uq_game_guest" in PlayerConstraints;
      (Err(HandlePgError(dbErr.value, PlayerConstraints).1), players)
    else (Ok(newPlayerId), players + [row])
  }

  /** A successful insert keeps the game_players constraints. */
  lemma AddPlayerKeepsPlayersValid(players: seq<GamePlayer>, gameId: string, userId: Option<string>,
                                   guestPlayerId: Option<string>, seatingOrder: int, newPlayerId: string,
                                   fault: Option<DbError>)
    requires GamePlayersValid(players) && newPlayerId !in GamePlayerIds(players)
    ensures GamePlayersValid(AddPlayerEffect(players, gameId, userId, guestPlayerId, seatingOrder, newPlayerId, fault).1)
  {
    var o := AddPlayerEffect(players, gameId, userId, guestPlayerId, seatingOrder, newPlayerId, fault);
    if o.0.Ok? {
      var row := NewPlayerRow(newPlayerId, gameId, userId, guestPlayerId, seatingOrder);
      forall i | 0 <= i < |players|
        ensures players[i].gamePlayerId != newPlayerId
        ensures !(players[i].gameId == gameId && SameNonNullText(players[i].userId, row.userId))
        ensures !(players[i].gameId == gameId && SameNonNullText(players[i].guestPlayerId, row.guestPlayerId))
      {
        assert players[i] in players;
      }
      assert o.1 == players + [row];
    }
  }

  /** Nil and empty ids are stored as NULL, so they never clash with a seated player. */
  lemma NullIdsNeverClash(players: seq<GamePlayer>, gameId: string)
    ensures !UserSeated(players, gameId, NullablePointer(None)) && !UserSeated(players, gameId, NullablePointer(Some("")))
    ensures !GuestSeated(players, gameId, NullablePointer(None)) && !GuestSeated(players, gameId, NullablePointer(Some("")))
  {
  }

  /** AddPlayerToGame: a mapped unique violation is returned as it is, any other failure wrapped. */
  method AddPlayerToGame(db: Database, gameId: string, userId: Option<string>, guestPlayerId: Option<string>,
                         seatingOrder: int, newPlayerId: string, fault: Option<DbError>)
    returns (r: Result<string, Error>)
    requires db.Valid() && newPlayerId !in GamePlayerIds(db.gamePlayers)
    modifies db`gamePlayers
    ensures db.Valid()
    ensures (r, db.gamePlayers) == AddPlayerEffect(old(db.gamePlayers), gameId, userId, guestPlayerId, seatingOrder,
                                                   newPlayerId, fault)
  {
    var sqlUserId, sqlGuestId := NullText, NullText;
    if userId.Some? {
      sqlUserId := NullString(userId.value);
    }
    if guestPlayerId.Some? {
      sqlGuestId := NullString(guestPlayerId.value);
    }
    var row := GamePlayer(newPlayerId, gameId, sqlUserId, sqlGuestId, seatingOrder, 0, None);
    assert row == NewPlayerRow(newPlayerId, gameId, userId, guestPlayerId, seatingOrder);
    AddPlayerKeepsPlayersValid(db.gamePlayers, gameId, userId, guestPlayerId, seatingOrder, newPlayerId, fault);
    var dbErr := fault;
    if dbErr.None? {
      dbErr := PlayerInsertViolation(db.gamePlayers, row);
    }
    if dbErr.Some? {
      var (handled, appErr) := HandlePgError(dbErr.value, PlayerConstraints);
      if handled {
        return Err(appErr);
      }
      return Err(Database(dbErr.value));
    }
    db.gamePlayers := db.gamePlayers + [row];
    r := Ok(newPlayerId);
  }
}
