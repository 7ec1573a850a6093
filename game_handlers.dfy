/**
 * The game endpoints: creating a game (with a new, an existing or no game
 * session) and adding a registered user or a guest to a game. Both run their
 * store calls in one transaction that is committed only when every call
 * succeeds. Each handler is a function from the tables a request finds to
 * the tables it leaves and the reply it sends, and a method on the database
 * proved to have exactly that outcome.
 */
module GameHandlers {
  import opened Wrappers
  import opened DbUtils
  import opened Tables
  import opened ApiModels
  import opened Http
  import opened Sessions
  import opened UserStore
  import opened GameStore
  import opened SessionStore
  import opened HandlerUtils

  const StatusPending := "pending"

  // ---------------------------------------------------------------- HandleCreateGame

  /** CreateGameRequest: absent fields are None. */
  datatype CreateGameRequest = CreateGameRequest(sessionName: Option<string>, sessionId: Option<string>)

  /** The ids and the time the database would generate for a new session and game. */
  datatype GameFresh = GameFresh(sessionId: string, gameId: string, now: int)

  datatype CreateGameFaults = CreateGameFaults(
    beginTx: Option<DbError>,
    session: Option<DbError>,
    game: Option<DbError>,
    commit: Option<DbError>,
    fetch: Option<DbError>)

  const MsgCreateTxFailed := "Failed to start transaction for creating game"
  const MsgSessionFailed := "Failed to create game session"
  const MsgGameFailed := "Failed to create gaem"
  const MsgCreateCommitFailed := "Failed to finalize game creation"
  const MsgCreatedNoDetails := "Game created successfully, but full details could not be retrieved"
  const MsgCreated := "Game created successfully"

  /** Which session the new game belongs to. */
  datatype SessionPlan = NewSession(name: string) | ExistingSession(id: string) | NoSession

  /** A non-empty session name creates a session; otherwise a non-empty session id is used as it is. */
  function PlanSession(req: CreateGameRequest): (p: SessionPlan)
    ensures p.NewSession? <==> req.sessionName.Some? && req.sessionName.value != ""
    ensures p.NewSession? ==> p.name == req.sessionName.value
    ensures p.ExistingSession? <==>
      !(req.sessionName.Some? && req.sessionName.value != "") && req.sessionId.Some? && req.sessionId.value != ""
    ensures p.ExistingSession? ==> p.id == req.sessionId.value
  {
    if req.sessionName.Some? && req.sessionName.value != "" then NewSession(req.sessionName.value)
    else if req.sessionId.Some? && req.sessionId.value != "" then ExistingSession(req.sessionId.value)
    else NoSession
  }

  /** GameResponse: the session id only when the column is not NULL. */
  function ToGameResponse(g: Game): (r: GameResponse)
    ensures r.gameId == g.gameId && r.status == g.status && r.createdAt == g.createdAt
    ensures r.createdByUserId == g.createdByUserId
    ensures r.sessionId.Some? <==> g.sessionId.valid
    ensures r.sessionId.Some? ==> r.sessionId.value == g.sessionId.str
  {
    GameResponse(g.gameId, if g.sessionId.valid then Some(g.sessionId.str) else None, g.status, g.createdAt,
                 g.createdByUserId)
  }

  /** The reply after the commit: the game as read back, or only its id when that read fails. */
  function CreatedReply(games: seq<Game>, gameId: string, fetchFault: Option<DbError>): (r: Reply)
    ensures r.Json? && r.status == StatusCreated
    ensures fetchFault.Some? ==> r == Respond(StatusCreated, GameIdData(gameId), MsgCreatedNoDetails)
  {
    match GetGameByID(games, gameId, fetchFault)
    case Err(_) => Respond(StatusCreated, GameIdData(gameId), MsgCreatedNoDetails)
    case Ok(g) => Respond(StatusCreated, GameData(ToGameResponse(g)), MsgCreated)
  }

  /** The session step: the sessions table and the id the game gets, or the reply to a failed insert. */
  function SessionStep(sessions: seq<GameSession>, plan: SessionPlan, userId: string, fx: CreateGameFaults,
                       fr: GameFresh): (r: Result<(seq<GameSession>, Option<string>), Reply>)
    ensures r.Err? <==> plan.NewSession? && fx.session.Some?
    ensures r.Err? ==> r.error == ErrorResponse(StatusInternalServerError, MsgSessionFailed)
    ensures r.Ok? && plan.NewSession? ==>
      r.value == (CreateSessionEffect(sessions, plan.name, userId, fr.sessionId, fr.now, None).1, Some(fr.sessionId))
    ensures plan.ExistingSession? ==> r == Ok((sessions, Some(plan.id)))
    ensures plan.NoSession? ==> r == Ok((sessions, None))
  {
    match plan
    case NewSession(name) =>
      (match CreateSessionEffect(sessions, name, userId, fr.sessionId, fr.now, fx.session)
       case (Err(_), _) => Err(ErrorResponse(StatusInternalServerError, MsgSessionFailed))
       case (Ok(id), sessions') => Ok((sessions', Some(id))))
    case ExistingSession(id) => Ok((sessions, Some(id)))
    case NoSession => Ok((sessions, None))
  }

  /**
   * The transaction of HandleCreateGame: a new "pending" game with
   * randomised seating whose creator and scorekeeper are the user.
   */
  function CreateGameTx(s: Snapshot, userId: string, req: CreateGameRequest, fx: CreateGameFaults,
                        fr: GameFresh): (o: Outcome)
    ensures o.reply.Json?
    ensures o.state == s || o.state == CommittedGame(s, userId, req, fr)
    ensures o.state != s ==>
      fx.beginTx.None? && fx.commit.None? && fx.game.None? && (PlanSession(req).NewSession? ==> fx.session.None?)
    ensures fx.beginTx.Some? ==> o == Outcome(s, ErrorResponse(StatusInternalServerError, MsgCreateTxFailed))
    ensures fx.beginTx.None? && PlanSession(req).NewSession? && fx.session.Some? ==>
      o == Outcome(s, ErrorResponse(StatusInternalServerError, MsgSessionFailed))
    ensures fx.beginTx.None? && (PlanSession(req).NewSession? ==> fx.session.None?) && fx.game.Some? ==>
      o == Outcome(s, ErrorResponse(StatusInternalServerError, MsgGameFailed))
    ensures fx.beginTx.None? && (PlanSession(req).NewSession? ==> fx.session.None?) && fx.game.None? && fx.commit.Some? ==>
      o == Outcome(s, ErrorResponse(StatusInternalServerError, MsgCreateCommitFailed))
    ensures fx.beginTx.None? && (PlanSession(req).NewSession? ==> fx.session.None?) && fx.game.None? && fx.commit.None? ==>
      o == Outcome(CommittedGame(s, userId, req, fr), CreatedReply(CommittedGame(s, userId, req, fr).games, fr.gameId, fx.fetch))
  {
    if fx.beginTx.Some? then Outcome(s, ErrorResponse(StatusInternalServerError, MsgCreateTxFailed))
    else match SessionStep(s.sessions, PlanSession(req), userId, fx, fr)
      case Err(refused) => Outcome(s, refused)
      case Ok((sessions', sessionId)) =>
        match CreateGameEffect(s.games, sessionId, userId, userId, StatusPending, true, fr.gameId, fr.now, fx.game)
        case (Err(_), _) => Outcome(s, ErrorResponse(StatusInternalServerError, MsgGameFailed))
        case (Ok(gameId), games') =>
          if fx.commit.Some? then Outcome(s, ErrorResponse(StatusInternalServerError, MsgCreateCommitFailed))
          else Outcome(s.(sessions := sessions', games := games'), CreatedReply(games', gameId, fx.fetch))
  }

  /** The tables after a create that commits. */
  function CommittedGame(s: Snapshot, userId: string, req: CreateGameRequest, fr: GameFresh): (r: Snapshot)
    ensures r.users == s.users && r.identities == s.identities && r.gamePlayers == s.gamePlayers
    ensures r.guestPlayers == s.guestPlayers && r.friendships == s.friendships
    ensures |r.games| == |s.games| + 1 && r.games[..|s.games|] == s.games && r.games[|s.games|].gameId == fr.gameId
    ensures PlanSession(req).NewSession? ==> |r.sessions| == |s.sessions| + 1 && r.sessions[..|s.sessions|] == s.sessions
    ensures !PlanSession(req).NewSession? ==> r.sessions == s.sessions
  {
    var plan := PlanSession(req);
    var sessions' := if plan.NewSession? then CreateSessionEffect(s.sessions, plan.name, userId, fr.sessionId, fr.now, None).1
                     else s.sessions;
    var sessionId := match plan
      case NewSession(_) => Some(fr.sessionId)
      case ExistingSession(id) => Some(id)
      case NoSession => None;
    s.(sessions := sessions',
       games := CreateGameEffect(s.games, sessionId, userId, userId, StatusPending, true, fr.gameId, fr.now, None).1)
  }

  /** HandleCreateGame. */
  function CreateGameRequestOutcome(s: Snapshot, loadFailed: bool, values: map<string, SessionValue>,
                                    payload: Result<CreateGameRequest, string>, fx: CreateGameFaults,
                                    fr: GameFresh): (o: Outcome)
    ensures AuthenticatedUserId(loadFailed, values).Err? ==> o == Outcome(s, AuthenticatedUserId(loadFailed, values).error)
    ensures AuthenticatedUserId(loadFailed, values).Ok? && payload.Err? ==> o == Outcome(s, PayloadRefused(payload.error))
    ensures AuthenticatedUserId(loadFailed, values).Ok? && payload.Ok? ==>
      o == CreateGameTx(s, values[UserIdKey].s, payload.value, fx, fr)
  {
    match AuthenticatedUserId(loadFailed, values)
    case Err(unauthorized) => Outcome(s, unauthorized)
    case Ok(userId) =>
      if payload.Err? then Outcome(s, PayloadRefused(payload.error))
      else CreateGameTx(s, userId, payload.value, fx, fr)
  }

  /**
   * A game created and committed reads back as pending, with randomised
   * seating, the user as creator and scorekeeper, and the session the plan
   * chose: the new session (which reads back active), the id given, or
   * NULL. The tables keep their constraints.
   */
  lemma NewGameReadsBack(s: Snapshot, userId: string, req: CreateGameRequest, fr: GameFresh)
    requires SnapshotValid(s) && fr.gameId !in GameIds(s.games) && fr.sessionId !in SessionIds(s.sessions)
    ensures var s' := CommittedGame(s, userId, req, fr);
      SnapshotValid(s') && GameIds(s'.games) == GameIds(s.games) + {fr.gameId} &&
      s'.users == s.users && s'.identities == s.identities && s'.gamePlayers == s.gamePlayers &&
      GetGameByID(s'.games, fr.gameId, None).Ok? &&
      var g := GetGameByID(s'.games, fr.gameId, None).value;
      g.status == StatusPending && g.playerSeatingOrderRandomized &&
      g.createdByUserId == userId && g.currentScorekeeperUserId == NullString(userId) &&
      match PlanSession(req)
      case NewSession(name) =>
        g.sessionId == NullString(fr.sessionId) &&
        FindSession(s'.sessions, fr.sessionId).Some? && FindSession(s'.sessions, fr.sessionId).value.status == StatusActive
      case ExistingSession(id) => g.sessionId == SqlNullString(id, true) && s'.sessions == s.sessions
      case NoSession => !g.sessionId.valid && s'.sessions == s.sessions
  {
    var plan := PlanSession(req);
    var sessionId := match plan
      case NewSession(_) => Some(fr.sessionId)
      case ExistingSession(id) => Some(id)
      case NoSession => None;
    CreatedGameReadsBack(s.games, sessionId, userId, userId, StatusPending, true, fr.gameId, fr.now, None);
    if plan.NewSession? {
      CreatedSessionReadsBack(s.sessions, plan.name, userId, fr.sessionId, fr.now, None);
    }
  }

  /** Without faults the client gets a 201 with the new game, pending and in the chosen session. */
  lemma CreateGameSucceeds(s: Snapshot, userId: string, req: CreateGameRequest, fr: GameFresh)
    requires SnapshotValid(s) && fr.gameId !in GameIds(s.games) && fr.sessionId !in SessionIds(s.sessions)
    requires fr.sessionId != ""
    ensures var o := CreateGameTx(s, userId, req, CreateGameFaults(None, None, None, None, None), fr);
      o.state == CommittedGame(s, userId, req, fr) && o.reply.status == StatusCreated &&
      o.reply.body.data.GameData? && o.reply.body.data.game.gameId == fr.gameId &&
      o.reply.body.data.game.status == StatusPending && o.reply.body.data.game.createdByUserId == userId &&
      o.reply.body.data.game.sessionId == match PlanSession(req)
        case NewSession(_) => Some(fr.sessionId)
        case ExistingSession(id) => Some(id)
        case NoSession => None
  {
    NewGameReadsBack(s, userId, req, fr);
  }

  /** HandleCreateGame on the database. */
  method HandleCreateGame(db: Database, loadFailed: bool, values: map<string, SessionValue>,
                          payload: Result<CreateGameRequest, string>, fx: CreateGameFaults, fr: GameFresh)
    returns (reply: Reply)
    requires db.Valid() && db.tx.None?
    requires fr.gameId !in GameIds(db.games) && fr.sessionId !in SessionIds(db.sessions)
    modifies db
    ensures db.Valid() && db.tx.None?
    ensures Outcome(db.State(), reply) == CreateGameRequestOutcome(old(db.State()), loadFailed, values, payload, fx, fr)
  {
    var auth := AuthenticatedUserId(loadFailed, values);
    if auth.Err? {
      return auth.error;
    }
    var userId := auth.value;
    if payload.Err? {
      return PayloadRefused(payload.error);
    }
    var req := payload.value;
    var txErr := db.BeginTx(fx.beginTx);
    if txErr.Some? {
      return ErrorResponse(StatusInternalServerError, MsgCreateTxFailed);
    }
    var finalSessionId: Option<string> := None;
    if req.sessionName.Some? && req.sessionName.value != "" {
      var created := CreateGameSession(db, req.sessionName.value, userId, fr.sessionId, fr.now, fx.session);
      if created.Err? {
        reply := ErrorResponse(StatusInternalServerError, MsgSessionFailed);
        db.Rollback();
        return;
      }
      finalSessionId := Some(created.value);
    } else if req.sessionId.Some? && req.sessionId.value != "" {
      finalSessionId := req.sessionId;
    }
    var gameId := CreateGame(db, finalSessionId, userId, userId, StatusPending, true, fr.gameId, fr.now, fx.game);
    if gameId.Err? {
      reply := ErrorResponse(StatusInternalServerError, MsgGameFailed);
      db.Rollback();
      return;
    }
    var commitErr := db.Commit(fx.commit);
    if commitErr.Some? {
      return ErrorResponse(StatusInternalServerError, MsgCreateCommitFailed);
    }
    var fetched := GetGameByID(db.games, gameId.value, fx.fetch);
    if fetched.Err? {
      return Respond(StatusCreated, GameIdData(gameId.value), MsgCreatedNoDetails);
    }
    reply := Respond(StatusCreated, GameData(ToGameResponse(fetched.value)), MsgCreated);
  }

  // ---------------------------------------------------------------- HandleAddPlayerToGame

  /** AddPlayerToGameRequest: absent fields are None; a missing seating order is 0. */
  datatype AddPlayerRequest = AddPlayerRequest(userId: Option<string>, guestName: Option<string>, seatingOrder: int)

  /** The ids and the time the database would generate for a new guest and seat. */
  datatype PlayerFresh = PlayerFresh(guestId: string, gamePlayerId: string, now: int)

  datatype AddPlayerFaults = AddPlayerFaults(
    access: Option<DbError>,
    beginTx: Option<DbError>,
    guestFind: Option<DbError>,
    guestCreate: Option<DbError>,
    add: Option<DbError>,
    user: Option<DbError>,
    commit: Option<DbError>)

  const MsgGameIdRequired := "Game ID is required"
  const MsgNoPlayer := "Either user_id or guest_name must be provided"
  const MsgBothPlayers := "Provide either user_id or guest_name, not both"
  const MsgBadSeat := "Seating order must be a positive integer"
  const MsgAddTxFailed := "Failed to start transaction for adding player"
  const MsgGuestFailed := "Failed to process guest player"
  const MsgAlreadyInGame := "This player is already in the game"
  const MsgAddFailed := "Failed to add player to game"
  const MsgPlayerUserFailed := "Failed to retrieve player details"
  const MsgAddCommitFailed := "Failed to finalize adding player"
  const MsgPlayerAdded := "Player added to game successfully"

  predicate NamesUser(req: AddPlayerRequest) {
    req.userId.Some? && req.userId.value != ""
  }

  predicate NamesGuest(req: AddPlayerRequest) {
    req.guestName.Some? && req.guestName.value != ""
  }

  /** The body's rules: exactly one of a user and a guest, and a positive seat. */
  function CheckPlayerRequest(req: AddPlayerRequest): (r: Option<Reply>)
    ensures r.None? <==> (NamesUser(req) <==> !NamesGuest(req)) && req.seatingOrder > 0
    ensures !NamesUser(req) && !NamesGuest(req) ==> r == Some(ErrorResponse(StatusBadRequest, MsgNoPlayer))
    ensures NamesUser(req) && NamesGuest(req) ==> r == Some(ErrorResponse(StatusBadRequest, MsgBothPlayers))
    ensures r.Some? ==> r.value.Json? && r.value.status == StatusBadRequest
  {
    if !NamesUser(req) && !NamesGuest(req) then Some(ErrorResponse(StatusBadRequest, MsgNoPlayer))
    else if NamesUser(req) && NamesGuest(req) then Some(ErrorResponse(StatusBadRequest, MsgBothPlayers))
    else if req.seatingOrder <= 0 then Some(ErrorResponse(StatusBadRequest, MsgBadSeat))
    else None
  }

  /** The guest step: the guest table and the guest id of the seat, or the reply to a failure. */
  function GuestStep(guests: seq<GuestPlayer>, req: AddPlayerRequest, fx: AddPlayerFaults, fr: PlayerFresh)
    : (r: Result<(seq<GuestPlayer>, Option<string>), Reply>)
    ensures !NamesGuest(req) ==> r == Ok((guests, None))
    ensures r.Err? ==> r.error == ErrorResponse(StatusInternalServerError, MsgGuestFailed)
    ensures NamesGuest(req) && r.Ok? ==>
      var o := FindOrCreateGuestEffect(guests, req.guestName.value, fr.guestId, fr.now, fx.guestFind, fx.guestCreate);
      o.0.Ok? && r.value == (o.1, Some(o.0.value)) && GuestNamed(o.1, o.0.value, req.guestName.value)
  {
    if !NamesGuest(req) then Ok((guests, None))
    else match FindOrCreateGuestEffect(guests, req.guestName.value, fr.guestId, fr.now, fx.guestFind, fx.guestCreate)
      case (Err(_), _) => Err(ErrorResponse(StatusInternalServerError, MsgGuestFailed))
      case (Ok(id), guests') => Ok((guests', Some(id)))
  }

  /** The name the new seat is shown with: the user's shown name for a user, the guest name otherwise. */
  function SeatName(users: seq<User>, req: AddPlayerRequest, fault: Option<DbError>): (r: Result<string, Reply>)
    ensures !NamesUser(req) ==> r == Ok(if req.guestName.Some? then req.guestName.value else "")
    ensures NamesUser(req) ==> (r.Ok? <==> fault.None? && req.userId.value in UserIds(users))
    ensures NamesUser(req) && r.Ok? ==> r.value == ShownName(FindUserById(users, req.userId.value).value)
    ensures r.Err? ==> r.error == ErrorResponse(StatusInternalServerError, MsgPlayerUserFailed)
  {
    if NamesUser(req) then
      match GetUserByID(users, req.userId.value, fault)
      case Err(_) => Err(ErrorResponse(StatusInternalServerError, MsgPlayerUserFailed))
      case Ok(u) => Ok(ShownName(u))
    else Ok(if req.guestName.Some? then req.guestName.value else "")
  }

  /** The reply to a failed insert of the seat. */
  function AddErrorReply(e: Error): (r: Reply)
    ensures r.Json?
    ensures r.status == StatusConflict <==> e == PlayerAlreadyInGame
    ensures e != PlayerAlreadyInGame ==> r == ErrorResponse(StatusInternalServerError, MsgAddFailed)
  {
    if e == PlayerAlreadyInGame then ErrorResponse(StatusConflict, MsgAlreadyInGame)
    else ErrorResponse(StatusInternalServerError, MsgAddFailed)
  }

  /** The transaction of HandleAddPlayerToGame: the guest, the seat, the shown name, the commit. */
  function AddPlayerTx(s: Snapshot, gameId: string, req: AddPlayerRequest, fx: AddPlayerFaults, fr: PlayerFresh)
    : (o: Outcome)
    ensures o.reply.Json?
    ensures o.state != s ==> fx.beginTx.None? && fx.add.None? && fx.commit.None? && o.reply.status == StatusCreated
    ensures o.reply.status == StatusCreated ==>
      GuestStep(s.guestPlayers, req, fx, fr).Ok? &&
      var (guests', guestId) := GuestStep(s.guestPlayers, req, fx, fr).value;
      var row := NewPlayerRow(fr.gamePlayerId, gameId, req.userId, guestId, req.seatingOrder);
      o.state == s.(guestPlayers := guests', gamePlayers := s.gamePlayers + [row]) &&
      !UserSeated(s.gamePlayers, gameId, row.userId) && !GuestSeated(s.gamePlayers, gameId, row.guestPlayerId) &&
      SeatName(s.users, req, fx.user).Ok? &&
      o.reply == Respond(StatusCreated,
                         PlayerData(GamePlayerResponse(fr.gamePlayerId, gameId, req.userId, guestId,
                                                       SeatName(s.users, req, fx.user).value, req.seatingOrder, 0)),
                         MsgPlayerAdded)
  {
    if fx.beginTx.Some? then Outcome(s, ErrorResponse(StatusInternalServerError, MsgAddTxFailed))
    else match GuestStep(s.guestPlayers, req, fx, fr)
      case Err(refused) => Outcome(s, refused)
      case Ok((guests', guestId)) =>
        match AddPlayerEffect(s.gamePlayers, gameId, req.userId, guestId, req.seatingOrder, fr.gamePlayerId, fx.add)
        case (Err(e), _) => Outcome(s, AddErrorReply(e))
        case (Ok(gamePlayerId), players') =>
          match SeatName(s.users, req, fx.user)
          case Err(refused) => Outcome(s, refused)
          case Ok(name) =>
            if fx.commit.Some? then Outcome(s, ErrorResponse(StatusInternalServerError, MsgAddCommitFailed))
            else
              Outcome(s.(guestPlayers := guests', gamePlayers := players'),
                      Respond(StatusCreated,
                              PlayerData(GamePlayerResponse(gamePlayerId, gameId, req.userId, guestId, name,
                                                            req.seatingOrder, 0)),
                              MsgPlayerAdded))
  }

  /**
   * HandleAddPlayerToGame: the game id from the path, the signed-in user,
   * the scorekeeper check (outside the transaction), the body's rules, then
   * the transaction.
   */
  function AddPlayer(s: Snapshot, pathGameId: Option<string>, loadFailed: bool, values: map<string, SessionValue>,
                     payload: Result<AddPlayerRequest, string>, fx: AddPlayerFaults, fr: PlayerFresh): (o: Outcome)
    ensures o.reply.Json?
    ensures pathGameId.None? || pathGameId.value == "" ==> o == Outcome(s, ErrorResponse(StatusBadRequest, MsgGameIdRequired))
    ensures o.state != s ==>
      pathGameId.Some? && AuthenticatedUserId(loadFailed, values).Ok? &&
      CheckGameAccessAndScorekeeper(s.games, pathGameId.value, values[UserIdKey].s, fx.access).Ok? &&
      payload.Ok? && CheckPlayerRequest(payload.value).None? &&
      o == AddPlayerTx(s, pathGameId.value, payload.value, fx, fr)
    ensures o.reply.status == StatusCreated ==>
      pathGameId.Some? && AuthenticatedUserId(loadFailed, values).Ok? &&
      FindGame(s.games, pathGameId.value).Some? &&
      IsScorekeeper(FindGame(s.games, pathGameId.value).value, values[UserIdKey].s) &&
      payload.Ok? && CheckPlayerRequest(payload.value).None? &&
      o == AddPlayerTx(s, pathGameId.value, payload.value, fx, fr)
  {
    if pathGameId.None? || pathGameId.value == "" then Outcome(s, ErrorResponse(StatusBadRequest, MsgGameIdRequired))
    else match AuthenticatedUserId(loadFailed, values)
      case Err(unauthorized) => Outcome(s, unauthorized)
      case Ok(userId) =>
        match CheckGameAccessAndScorekeeper(s.games, pathGameId.value, userId, fx.access)
        case Err(refused) => Outcome(s, refused)
        case Ok(_) =>
          if payload.Err? then Outcome(s, PayloadRefused(payload.error))
          else match CheckPlayerRequest(payload.value)
            case Some(refused) => Outcome(s, refused)
            case None => AddPlayerTx(s, pathGameId.value, payload.value, fx, fr)
  }

  /**
   * A seat that is added keeps every constraint, and it is the only change
   * besides at most one new guest of the requested name.
   */
  lemma AddPlayerKeepsTablesValid(s: Snapshot, gameId: string, req: AddPlayerRequest, fx: AddPlayerFaults,
                                  fr: PlayerFresh)
    requires SnapshotValid(s)
    requires fr.guestId !in GuestPlayerIds(s.guestPlayers) && fr.gamePlayerId !in GamePlayerIds(s.gamePlayers)
    ensures var o := AddPlayerTx(s, gameId, req, fx, fr);
      SnapshotValid(o.state) && o.state.users == s.users && o.state.games == s.games &&
      |s.guestPlayers| <= |o.state.guestPlayers| <= |s.guestPlayers| + 1
  {
    if NamesGuest(req) {
      FindOrCreateKeepsGuestsValid(s.guestPlayers, req.guestName.value, fr.guestId, fr.now, fx.guestFind, fx.guestCreate);
    }
    var g := GuestStep(s.guestPlayers, req, fx, fr);
    if g.Ok? {
      AddPlayerKeepsPlayersValid(s.gamePlayers, gameId, req.userId, g.value.1, req.seatingOrder, fr.gamePlayerId, fx.add);
    }
  }

  /**
   * The name shown for the new seat: the guest name for a guest; for a
   * user, the display name when it is set and non-empty, else the username.
   */
  lemma SeatIsNamedAsRequested(s: Snapshot, gameId: string, req: AddPlayerRequest, fx: AddPlayerFaults,
                               fr: PlayerFresh)
    requires CheckPlayerRequest(req).None?
    requires AddPlayerTx(s, gameId, req, fx, fr).reply.status == StatusCreated
    ensures var p := AddPlayerTx(s, gameId, req, fx, fr).reply.body.data.player;
      p.finalScore == 0 && p.seatingOrder == req.seatingOrder && p.gameId == gameId &&
      (NamesGuest(req) ==> p.displayName == req.guestName.value && p.guestPlayerId.Some?) &&
      (NamesUser(req) ==>
        var u := FindUserById(s.users, req.userId.value).value;
        p.displayName == (if u.displayName.valid && u.displayName.str != "" then u.displayName.str else u.username) &&
        p.userId == req.userId && p.guestPlayerId.None?)
  {
  }

  /** A player the game already seats gets a 409 and nothing changes. */
  lemma SeatedPlayerIsConflict(s: Snapshot, gameId: string, req: AddPlayerRequest, fx: AddPlayerFaults,
                               fr: PlayerFresh)
    requires fx.beginTx.None? && fx.add.None? && NamesUser(req) && !NamesGuest(req)
    requires UserSeated(s.gamePlayers, gameId, NullablePointer(req.userId))
    ensures AddPlayerTx(s, gameId, req, fx, fr) == Outcome(s, ErrorResponse(StatusConflict, MsgAlreadyInGame))
  {
  }

  /**
   * An empty user id beside a guest name passes the body's rules, and the
   * reply then carries that empty user id next to the guest.
   */
  lemma EmptyUserIdBesideGuestIsEchoed(s: Snapshot, gameId: string, guestName: string, seat: int,
                                       fx: AddPlayerFaults, fr: PlayerFresh)
    requires guestName != "" && seat > 0
    requires AddPlayerTx(s, gameId, AddPlayerRequest(Some(""), Some(guestName), seat), fx, fr).reply.status == StatusCreated
    ensures CheckPlayerRequest(AddPlayerRequest(Some(""), Some(guestName), seat)).None?
    ensures AddPlayerTx(s, gameId, AddPlayerRequest(Some(""), Some(guestName), seat), fx, fr).reply.body.data.player.userId
      == Some("")
  {
  }

  /** HandleAddPlayerToGame on the database. */
  method HandleAddPlayerToGame(db: Database, pathGameId: Option<string>, loadFailed: bool,
                               values: map<string, SessionValue>, payload: Result<AddPlayerRequest, string>,
                               fx: AddPlayerFaults, fr: PlayerFresh) returns (reply: Reply)
    requires db.Valid() && db.tx.None?
    requires fr.guestId !in GuestPlayerIds(db.guestPlayers) && fr.gamePlayerId !in GamePlayerIds(db.gamePlayers)
    modifies db
    ensures db.Valid() && db.tx.None?
    ensures Outcome(db.State(), reply) == AddPlayer(old(db.State()), pathGameId, loadFailed, values, payload, fx, fr)
  {
    if pathGameId.None? || pathGameId.value == "" {
      return ErrorResponse(StatusBadRequest, MsgGameIdRequired);
    }
    var gameId := pathGameId.value;
    var auth := AuthenticatedUserId(loadFailed, values);
    if auth.Err? {
      return auth.error;
    }
    var access := CheckGameAccessAndScorekeeper(db.games, gameId, auth.value, fx.access);
    if access.Err? {
      return access.error;
    }
    if payload.Err? {
      return PayloadRefused(payload.error);
    }
    var req := payload.value;
    var refused := CheckPlayerRequest(req);
    if refused.Some? {
      return refused.value;
    }
    reply := AddPlayerTransaction(db, gameId, req, fx, fr);
  }

  /** The transaction of HandleAddPlayerToGame: the guest, the seat and the shown name, then the commit. */
  method AddPlayerTransaction(db: Database, gameId: string, req: AddPlayerRequest, fx: AddPlayerFaults, fr: PlayerFresh)
    returns (reply: Reply)
    requires db.Valid() && db.tx.None?
    requires fr.guestId !in GuestPlayerIds(db.guestPlayers) && fr.gamePlayerId !in GamePlayerIds(db.gamePlayers)
    modifies db
    ensures db.Valid() && db.tx.None?
    ensures Outcome(db.State(), reply) == AddPlayerTx(old(db.State()), gameId, req, fx, fr)
  {
    var txErr := db.BeginTx(fx.beginTx);
    if txErr.Some? {
      return ErrorResponse(StatusInternalServerError, MsgAddTxFailed);
    }
    ghost var s := db.State();
    var guest := AddGuestIfNamed(db, req, fx, fr);
    if guest.Err? {
      reply := guest.error;
      db.Rollback();
      return;
    }
    var finalGuestId := guest.value;
    var gamePlayerId := AddPlayerToGame(db, gameId, req.userId, finalGuestId, req.seatingOrder, fr.gamePlayerId, fx.add);
    if gamePlayerId.Err? {
      reply := AddErrorReply(gamePlayerId.error);
      db.Rollback();
      return;
    }
    var name := ReadSeatName(db.users, req, fx.user);
    if name.Err? {
      reply := name.error;
      db.Rollback();
      return;
    }
    var displayName := name.value;
    var commitErr := db.Commit(fx.commit);
    if commitErr.Some? {
      return ErrorResponse(StatusInternalServerError, MsgAddCommitFailed);
    }
    reply := Respond(StatusCreated,
                     PlayerData(GamePlayerResponse(gamePlayerId.value, gameId, req.userId, finalGuestId, displayName,
                                                   req.seatingOrder, 0)),
                     MsgPlayerAdded);
  }

  /** The guest part of the transaction: find or create the named guest, when the request names one. */
  method AddGuestIfNamed(db: Database, req: AddPlayerRequest, fx: AddPlayerFaults, fr: PlayerFresh)
    returns (r: Result<Option<string>, Reply>)
    requires db.Valid() && fr.guestId !in GuestPlayerIds(db.guestPlayers)
    modifies db`guestPlayers
    ensures db.Valid()
    ensures GuestStep(old(db.guestPlayers), req, fx, fr)
      == (if r.Ok? then Ok((db.guestPlayers, r.value)) else Err(r.error))
    ensures r.Err? ==> db.guestPlayers == old(db.guestPlayers)
  {
    if req.guestName.Some? && req.guestName.value != "" {
      var guest := FindOrCreateGuestPlayer(db, req.guestName.value, fr.guestId, fr.now, fx.guestFind, fx.guestCreate);
      if guest.Err? {
        return Err(ErrorResponse(StatusInternalServerError, MsgGuestFailed));
      }
      return Ok(Some(guest.value));
    }
    return Ok(None);
  }

  /** The name the seat is shown with: the guest name, replaced by the user's shown name for a user seat. */
  method ReadSeatName(users: seq<User>, req: AddPlayerRequest, fault: Option<DbError>) returns (r: Result<string, Reply>)
    ensures r == SeatName(users, req, fault)
  {
    var displayName := "";
    if req.guestName.Some? && req.guestName.value != "" {
      displayName := req.guestName.value;
    }
    if req.userId.Some? && req.userId.value != "" {
      var dbUser := GetUserByID(users, req.userId.value, fault);
      if dbUser.Err? {
        return Err(ErrorResponse(StatusInternalServerError, MsgPlayerUserFailed));
      }
      displayName := ShownName(dbUser.value);
    }
    return Ok(displayName);
  }
}
