/**
 * The settings endpoints that change the signed-in user's row or identities:
 * the theme, the profile fields, and unlinking a provider. Each runs its
 * store call inside a transaction that is committed only when the call
 * succeeds and is rolled back otherwise. Each handler is a function from the
 * tables a request finds to the tables it leaves and the reply it sends, and
 * a method on the database proved to have exactly that outcome.
 */
module SettingsHandlers {
  import opened Wrappers
  import opened Text
  import opened DbUtils
  import opened Tables
  import opened Http
  import opened Sessions
  import opened UserStore
  import opened HandlerUtils

  /** UpdateUserThemeRequest, as decoded from the body. */
  datatype ThemeRequest = ThemeRequest(uiTheme: string, colorTheme: string)

  /** UpdateUserProfileRequest: a field that is absent from the body is None. */
  datatype ProfileRequest = ProfileRequest(displayName: Option<string>, avatarUrl: Option<string>,
                                           statsPrivacy: Option<string>)

  /**
   * The faults a settings request can meet: starting the transaction, the
   * store call (for unlinking, its count query), the delete statement, the
   * commit, and the read of the user sent back.
   */
  datatype SettingsFaults = SettingsFaults(
    beginTx: Option<DbError>,
    store: Option<DbError>,
    delete: Option<DbError>,
    commit: Option<DbError>,
    fetch: Option<DbError>)

  // ---------------------------------------------------------------- HandleUpdateUserTheme

  const MsgThemeFailed := "Failed to update theme settings"
  const MsgThemeUserNotFound := "User not found, cannot update theme"
  const MsgThemeSaveFailed := "Failed to save theme settings"
  const MsgThemeOk := "Theme settings updated successfully"

  /** The required fields, in the order the check visits them. */
  function ThemeFields(req: ThemeRequest, colorFirst: bool): (f: seq<(string, string)>)
    ensures multiset(f) == multiset{("ui_theme", req.uiTheme), ("color_theme", req.colorTheme)}
  {
    if colorFirst then [("color_theme", req.colorTheme), ("ui_theme", req.uiTheme)]
    else [("ui_theme", req.uiTheme), ("color_theme", req.colorTheme)]
  }

  /** The change UpdateUserThemeSettings makes: an empty theme name is stored as NULL. */
  function ThemeChange(req: ThemeRequest, now: int): (c: UserChange)
    ensures c.Theme? && c.at == now
    ensures c.uiTheme.valid <==> req.uiTheme != ""
    ensures c.colorTheme.valid <==> req.colorTheme != ""
    ensures c.uiTheme.str == req.uiTheme && c.colorTheme.str == req.colorTheme
  {
    Theme(NullString(req.uiTheme), NullString(req.colorTheme), now)
  }

  /** The transaction of a theme update. */
  function ThemeTx(s: Snapshot, userId: string, req: ThemeRequest, fx: SettingsFaults, now: int,
                   format: int -> string): (o: Outcome)
    ensures o.reply.Json?
    ensures o.state == s || o.state == s.(users := UpdateUserRows(s.users, userId, ThemeChange(req, now)))
    ensures o.state != s ==> fx.beginTx.None? && fx.store.None? && fx.commit.None? && userId in UserIds(s.users)
    ensures fx.beginTx.Some? ==> o == Outcome(s, ErrorResponse(StatusInternalServerError, MsgThemeFailed))
    ensures fx.beginTx.None? && fx.store.Some? ==> o == Outcome(s, ErrorResponse(StatusInternalServerError, MsgThemeFailed))
    ensures fx.beginTx.None? && fx.store.None? && userId in UserIds(s.users) && fx.commit.Some? ==>
      o == Outcome(s, ErrorResponse(StatusInternalServerError, MsgThemeSaveFailed))
    ensures fx.beginTx.None? && fx.store.None? && fx.commit.None? && userId in UserIds(s.users) ==>
      o.state == s.(users := UpdateUserRows(s.users, userId, ThemeChange(req, now))) &&
      o.reply == FetchUserAndRespond(o.state.users, userId, fx.fetch, StatusOK, MsgThemeOk, format)
    ensures fx.beginTx.None? && fx.store.None? && userId !in UserIds(s.users) ==>
      o == Outcome(s, ErrorResponse(StatusNotFound, MsgThemeUserNotFound))
  {
    if fx.beginTx.Some? then Outcome(s, ErrorResponse(StatusInternalServerError, MsgThemeFailed))
    else
      var (err, users') := UpdateUserEffect(s.users, userId, ThemeChange(req, now), fx.store, UserNotFound);
      if err.Some? then
        Outcome(s, if err.value == UserNotFound then ErrorResponse(StatusNotFound, MsgThemeUserNotFound)
                   else ErrorResponse(StatusInternalServerError, MsgThemeFailed))
      else if fx.commit.Some? then Outcome(s, ErrorResponse(StatusInternalServerError, MsgThemeSaveFailed))
      else Outcome(s.(users := users'), FetchUserAndRespond(users', userId, fx.fetch, StatusOK, MsgThemeOk, format))
  }

  /**
   * HandleUpdateUserTheme: the signed-in user, a decodable body with both
   * theme names, then the transaction. `colorFirst` is the order the
   * required-field check happens to visit the two names in.
   */
  function UpdateUserTheme(s: Snapshot, loadFailed: bool, values: map<string, SessionValue>,
                           payload: Result<ThemeRequest, string>, colorFirst: bool, fx: SettingsFaults, now: int,
                           format: int -> string): (o: Outcome)
    ensures o.reply.Json?
    ensures AuthenticatedUserId(loadFailed, values).Err? ==> o == Outcome(s, AuthenticatedUserId(loadFailed, values).error)
    ensures AuthenticatedUserId(loadFailed, values).Ok? && payload.Err? ==> o == Outcome(s, PayloadRefused(payload.error))
    ensures AuthenticatedUserId(loadFailed, values).Ok? && payload.Ok? ==>
      if payload.value.uiTheme == "" || payload.value.colorTheme == "" then
        o.state == s && o.reply.status == StatusBadRequest
      else o == ThemeTx(s, values[UserIdKey].s, payload.value, fx, now, format)
  {
    match AuthenticatedUserId(loadFailed, values)
    case Err(unauthorized) => Outcome(s, unauthorized)
    case Ok(userId) =>
      if payload.Err? then Outcome(s, PayloadRefused(payload.error))
      else match RequireFields(ThemeFields(payload.value, colorFirst))
        case Some(missing) => Outcome(s, missing)
        case None => ThemeTx(s, userId, payload.value, fx, now, format)
  }

  /** A theme update that commits stores both names (empty ones as NULL) on the user's row and nothing else. */
  lemma ThemeIsStored(s: Snapshot, userId: string, req: ThemeRequest, fx: SettingsFaults, now: int,
                      format: int -> string)
    requires fx.beginTx.None? && fx.store.None? && fx.commit.None? && userId in UserIds(s.users)
    ensures var u := FindUserById(ThemeTx(s, userId, req, fx, now, format).state.users, userId);
      u.Some? && u.value.uiTheme == NullString(req.uiTheme) && u.value.colorTheme == NullString(req.colorTheme)
      && u.value.updatedAt == now
    ensures ThemeTx(s, userId, req, fx, now, format).state.identities == s.identities
  {
    UpdatedUserReadsBack(s.users, userId, ThemeChange(req, now));
  }

  /** HandleUpdateUserTheme on the database. */
  method HandleUpdateUserTheme(db: Database, loadFailed: bool, values: map<string, SessionValue>,
                               payload: Result<ThemeRequest, string>, colorFirst: bool, fx: SettingsFaults, now: int,
                               format: int -> string) returns (reply: Reply)
    requires db.Valid() && db.tx.None?
    modifies db
    ensures db.Valid() && db.tx.None?
    ensures Outcome(db.State(), reply) == UpdateUserTheme(old(db.State()), loadFailed, values, payload, colorFirst, fx, now, format)
  {
    var auth := AuthenticatedUserId(loadFailed, values);
    if auth.Err? {
      return auth.error;
    }
    var userId := auth.value;
    if payload.Err? {
      return PayloadRefused(payload.error);
    }
    var req := payload.value;
    var missing := RequireFields(ThemeFields(req, colorFirst));
    if missing.Some? {
      return missing.value;
    }
    reply := ThemeTransaction(db, userId, req, fx, now, format);
  }

  /** The transaction of HandleUpdateUserTheme on the database. */
  method ThemeTransaction(db: Database, userId: string, req: ThemeRequest, fx: SettingsFaults, now: int,
                          format: int -> string) returns (reply: Reply)
    requires db.Valid() && db.tx.None?
    modifies db
    ensures db.Valid() && db.tx.None?
    ensures Outcome(db.State(), reply) == ThemeTx(old(db.State()), userId, req, fx, now, format)
  {
    var txErr := db.BeginTx(fx.beginTx);
    if txErr.Some? {
      return ErrorResponse(StatusInternalServerError, MsgThemeFailed);
    }
    var opErr := UpdateUserThemeSettings(db, userId, req.uiTheme, req.colorTheme, now, fx.store);
    if opErr.Some? {
      if opErr.value == UserNotFound {
        reply := ErrorResponse(StatusNotFound, MsgThemeUserNotFound);
      } else {
        reply := ErrorResponse(StatusInternalServerError, MsgThemeFailed);
      }
      db.Rollback();
      return;
    }
    var commitErr := db.Commit(fx.commit);
    if commitErr.Some? {
      return ErrorResponse(StatusInternalServerError, MsgThemeSaveFailed);
    }
    reply := FetchUserAndRespond(db.users, userId, fx.fetch, StatusOK, MsgThemeOk, format);
  }

  // ---------------------------------------------------------------- HandleUpdateUserProfile

  const MsgBlankDisplayName := "Display name cannot be empty or only whitespace"
  const MsgProfileUnchanged := "No profile information was updated"
  const MsgProfileFailed := "Failed to update user profile"
  const MsgProfileUserNotFound := "User not found, cannot update profile"
  const MsgProfileUpdateFailed := "Failed to update profile information"
  const MsgProfileSaveFailed := "Failed to save profile changes"
  const MsgProfileOk := "Profile updated successfully"
  const MsgInvalidStatsPrivacy := "invalid value for stats_privacy field"

  /**
   * The update set built from the request: the trimmed display name, the
   * avatar URL and the stats privacy, each only when the body has it; a
   * display name that trims to nothing refuses the request.
   */
  function ProfileUpdateSet(req: ProfileRequest): (r: Result<map<string, string>, Reply>)
    ensures r.Err? <==> req.displayName.Some? && TrimSpace(req.displayName.value) == ""
    ensures r.Err? ==> r.error == ErrorResponse(StatusBadRequest, MsgBlankDisplayName)
    ensures r.Ok? ==>
      r.value.Keys <= {"display_name", "avatar_url", "stats_privacy"} &&
      ("display_name" in r.value <==> req.displayName.Some?) &&
      ("avatar_url" in r.value <==> req.avatarUrl.Some?) &&
      ("stats_privacy" in r.value <==> req.statsPrivacy.Some?) &&
      ("display_name" in r.value ==> r.value["display_name"] == TrimSpace(req.displayName.value) != "") &&
      ("avatar_url" in r.value ==> r.value["avatar_url"] == req.avatarUrl.value) &&
      ("stats_privacy" in r.value ==> r.value["stats_privacy"] == req.statsPrivacy.value)
  {
    if req.displayName.Some? && TrimSpace(req.displayName.value) == "" then
      Err(ErrorResponse(StatusBadRequest, MsgBlankDisplayName))
    else
      var withName: map<string, string> :=
        if req.displayName.Some? then map["display_name" := TrimSpace(req.displayName.value)] else map[];
      var withAvatar := if req.avatarUrl.Some? then withName["avatar_url" := req.avatarUrl.value] else withName;
      Ok(if req.statsPrivacy.Some? then withAvatar["stats_privacy" := req.statsPrivacy.value] else withAvatar)
  }

  /** A body with none of the three fields changes nothing. */
  lemma EmptyRequestIsEmptySet()
    ensures ProfileUpdateSet(ProfileRequest(None, None, None)) == Ok(map[])
  {
  }

  /**
   * What UpdateUserProfile does with a set built by ProfileUpdateSet: only
   * stats_privacy can be refused, and then nothing is written.
   */
  function ProfileStoreEffect(users: seq<User>, userId: string, updates: map<string, string>, fault: Option<DbError>,
                              now: int): (o: (Option<Error>, seq<User>))
    ensures o.0.None? ==> o.1 == users || o.1 == UpdateUserRows(users, userId, Profile(updates, now))
  {
    if |updates| == 0 then (None, users)
    else if "stats_privacy" in updates && !IsValidStatsPrivacy(updates["stats_privacy"]) then
      (Some(Failure(RejectMessage("stats_privacy", updates["stats_privacy"]))), users)
    else UpdateUserEffect(users, userId, Profile(updates, now), fault, UserNotFound)
  }

  /**
   * The reply to a failed profile update. The 400 for ErrInvalidStatsPrivacy
   * is never sent: UpdateUserProfile reports a refused value with a message
   * of its own, which is not that error, so it falls to the 500.
   */
  function ProfileErrorReply(e: Error): (r: Reply)
    ensures r.Json?
    ensures r.status == StatusNotFound <==> e == UserNotFound
    ensures r.status == StatusBadRequest <==> e == InvalidStatsPrivacy
    ensures e != UserNotFound && e != InvalidStatsPrivacy ==> r == ErrorResponse(StatusInternalServerError, MsgProfileUpdateFailed)
  {
    if e == UserNotFound then ErrorResponse(StatusNotFound, MsgProfileUserNotFound)
    else if e == InvalidStatsPrivacy then ErrorResponse(StatusBadRequest, MsgInvalidStatsPrivacy)
    else ErrorResponse(StatusInternalServerError, MsgProfileUpdateFailed)
  }

  /** UpdateUserProfile accepts the set's stats_privacy, if it has one. */
  predicate PrivacyAccepted(updates: map<string, string>) {
    "stats_privacy" in updates ==> IsValidStatsPrivacy(updates["stats_privacy"])
  }

  /** The transaction of a profile update with a non-empty set. */
  function ProfileTx(s: Snapshot, userId: string, updates: map<string, string>, fx: SettingsFaults, now: int,
                     format: int -> string): (o: Outcome)
    ensures o.reply.Json?
    ensures o.state == s || o.state == s.(users := UpdateUserRows(s.users, userId, Profile(updates, now)))
    ensures o.state != s ==> fx.beginTx.None? && fx.store.None? && fx.commit.None?
    ensures fx.beginTx.Some? ==> o == Outcome(s, ErrorResponse(StatusInternalServerError, MsgProfileFailed))
    ensures fx.beginTx.None? && |updates| > 0 && (fx.store.Some? || !PrivacyAccepted(updates)) ==>
      o == Outcome(s, ErrorResponse(StatusInternalServerError, MsgProfileUpdateFailed))
    ensures fx.beginTx.None? && |updates| > 0 && PrivacyAccepted(updates) && fx.store.None? && userId !in UserIds(s.users) ==>
      o == Outcome(s, ErrorResponse(StatusNotFound, MsgProfileUserNotFound))
    ensures fx.beginTx.None? && |updates| > 0 && PrivacyAccepted(updates) && fx.store.None? && userId in UserIds(s.users) ==>
      fx.commit.Some? ==> o == Outcome(s, ErrorResponse(StatusInternalServerError, MsgProfileSaveFailed))
    ensures fx.beginTx.None? && |updates| > 0 && PrivacyAccepted(updates) && fx.store.None? && userId in UserIds(s.users) ==>
      fx.commit.None? ==>
      var users' := UpdateUserRows(s.users, userId, Profile(updates, now));
      o == Outcome(s.(users := users'), FetchUserAndRespond(users', userId, fx.fetch, StatusOK, MsgProfileOk, format))
  {
    if fx.beginTx.Some? then Outcome(s, ErrorResponse(StatusInternalServerError, MsgProfileFailed))
    else
      var (err, users') := ProfileStoreEffect(s.users, userId, updates, fx.store, now);
      if err.Some? then Outcome(s, ProfileErrorReply(err.value))
      else if fx.commit.Some? then Outcome(s, ErrorResponse(StatusInternalServerError, MsgProfileSaveFailed))
      else Outcome(s.(users := users'), FetchUserAndRespond(users', userId, fx.fetch, StatusOK, MsgProfileOk, format))
  }

  /**
   * HandleUpdateUserProfile: an empty update set opens no transaction and
   * sends the user as stored.
   */
  function UpdateUserProfileRequest(s: Snapshot, loadFailed: bool, values: map<string, SessionValue>,
                                    payload: Result<ProfileRequest, string>, fx: SettingsFaults, now: int,
                                    format: int -> string): (o: Outcome)
    ensures o.reply.Json?
    ensures AuthenticatedUserId(loadFailed, values).Err? ==> o == Outcome(s, AuthenticatedUserId(loadFailed, values).error)
    ensures AuthenticatedUserId(loadFailed, values).Ok? && payload.Err? ==> o == Outcome(s, PayloadRefused(payload.error))
    ensures AuthenticatedUserId(loadFailed, values).Ok? && payload.Ok? ==>
      var userId := values[UserIdKey].s;
      match ProfileUpdateSet(payload.value)
      case Err(refused) => o == Outcome(s, refused)
      case Ok(updates) =>
        if |updates| == 0 then o == Outcome(s, FetchUserAndRespond(s.users, userId, fx.fetch, StatusOK, MsgProfileUnchanged, format))
        else o == ProfileTx(s, userId, updates, fx, now, format)
  {
    match AuthenticatedUserId(loadFailed, values)
    case Err(unauthorized) => Outcome(s, unauthorized)
    case Ok(userId) =>
      if payload.Err? then Outcome(s, PayloadRefused(payload.error))
      else match ProfileUpdateSet(payload.value)
        case Err(refused) => Outcome(s, refused)
        case Ok(updates) =>
          if |updates| == 0 then Outcome(s, FetchUserAndRespond(s.users, userId, fx.fetch, StatusOK, MsgProfileUnchanged, format))
          else ProfileTx(s, userId, updates, fx, now, format)
  }

  /** Only stats_privacy of the three fields can be refused by UpdateUserProfile. */
  lemma OnlyPrivacyIsRefused(updates: map<string, string>)
    requires updates.Keys <= {"display_name", "avatar_url", "stats_privacy"}
    ensures RejectsProfileUpdate(updates) <==> "stats_privacy" in updates && !IsValidStatsPrivacy(updates["stats_privacy"])
  {
    if RejectsProfileUpdate(updates) {
      var field :| field in updates && !IsAcceptedProfileUpdate(field, updates[field]);
      assert field == "stats_privacy";
    }
    if "stats_privacy" in updates && !IsValidStatsPrivacy(updates["stats_privacy"]) {
      assert !IsAcceptedProfileUpdate("stats_privacy", updates["stats_privacy"]);
    }
  }

  /** An unknown stats_privacy value is answered with a 500, and nothing is stored. */
  lemma InvalidPrivacyIsServerError(s: Snapshot, userId: string, req: ProfileRequest, fx: SettingsFaults, now: int,
                                    format: int -> string)
    requires ProfileUpdateSet(req).Ok? && req.statsPrivacy.Some? && !IsValidStatsPrivacy(req.statsPrivacy.value)
    requires fx.beginTx.None?
    ensures var o := ProfileTx(s, userId, ProfileUpdateSet(req).value, fx, now, format);
      o.state == s && o.reply == ErrorResponse(StatusInternalServerError, MsgProfileUpdateFailed)
  {
  }

  /**
   * A committed profile update stores the trimmed display name and the
   * other fields given, and keeps every field the body left out.
   */
  lemma ProfileIsStored(s: Snapshot, userId: string, req: ProfileRequest, fx: SettingsFaults, now: int,
                        format: int -> string)
    requires ProfileUpdateSet(req).Ok? && |ProfileUpdateSet(req).value| > 0
    requires fx.beginTx.None? && fx.store.None? && fx.commit.None? && userId in UserIds(s.users)
    requires req.statsPrivacy.Some? ==> IsValidStatsPrivacy(req.statsPrivacy.value)
    ensures var before := FindUserById(s.users, userId).value;
      var after := FindUserById(ProfileTx(s, userId, ProfileUpdateSet(req).value, fx, now, format).state.users, userId);
      after.Some? &&
      after.value.displayName == (if req.displayName.Some? then SqlNullString(TrimSpace(req.displayName.value), true)
                                  else before.displayName) &&
      after.value.avatarUrl == (if req.avatarUrl.Some? then SqlNullString(req.avatarUrl.value, true) else before.avatarUrl) &&
      after.value.statsPrivacy == (if req.statsPrivacy.Some? then req.statsPrivacy.value else before.statsPrivacy) &&
      after.value.avatarSource == before.avatarSource
  {
    var updates := ProfileUpdateSet(req).value;
    ProfileTxStores(s, userId, updates, fx, now, format);
    UpdatedUserReadsBack(s.users, userId, Profile(updates, now));
    ProfileFieldsApplied(FindUserById(s.users, userId).value, req, now);
  }

  /** Without failures and with an accepted set, the transaction applies the set to the user's row. */
  lemma ProfileTxStores(s: Snapshot, userId: string, updates: map<string, string>, fx: SettingsFaults, now: int,
                        format: int -> string)
    requires |updates| > 0 && !("stats_privacy" in updates && !IsValidStatsPrivacy(updates["stats_privacy"]))
    requires fx.beginTx.None? && fx.store.None? && fx.commit.None? && userId in UserIds(s.users)
    ensures ProfileTx(s, userId, updates, fx, now, format).state.users == UpdateUserRows(s.users, userId, Profile(updates, now))
  {
    assert ProfileStoreEffect(s.users, userId, updates, fx.store, now)
      == (None, UpdateUserRows(s.users, userId, Profile(updates, now)));
  }

  /** Applying the set built from a request changes exactly the fields the request names. */
  lemma ProfileFieldsApplied(u: User, req: ProfileRequest, now: int)
    requires ProfileUpdateSet(req).Ok?
    ensures var v := ApplyChange(u, Profile(ProfileUpdateSet(req).value, now));
      v.displayName == (if req.displayName.Some? then SqlNullString(TrimSpace(req.displayName.value), true) else u.displayName)
      && v.avatarUrl == (if req.avatarUrl.Some? then SqlNullString(req.avatarUrl.value, true) else u.avatarUrl)
      && v.statsPrivacy == (if req.statsPrivacy.Some? then req.statsPrivacy.value else u.statsPrivacy)
      && v.avatarSource == u.avatarSource
  {
    assert "avatar_source" !in ProfileUpdateSet(req).value;
  }

  /** HandleUpdateUserProfile on the database; the update set is built field by field. */
  method HandleUpdateUserProfile(db: Database, loadFailed: bool, values: map<string, SessionValue>,
                                 payload: Result<ProfileRequest, string>, fx: SettingsFaults, now: int,
                                 format: int -> string) returns (reply: Reply)
    requires db.Valid() && db.tx.None?
    modifies db
    ensures db.Valid() && db.tx.None?
    ensures Outcome(db.State(), reply) == UpdateUserProfileRequest(old(db.State()), loadFailed, values, payload, fx, now, format)
  {
    var auth := AuthenticatedUserId(loadFailed, values);
    if auth.Err? {
      return auth.error;
    }
    var userId := auth.value;
    if payload.Err? {
      return PayloadRefused(payload.error);
    }
    var req := payload.value;
    var updates: map<string, string> := map[];
    if req.displayName.Some? {
      var trimmed := TrimSpace(req.displayName.value);
      if trimmed == "" {
        return ErrorResponse(StatusBadRequest, MsgBlankDisplayName);
      }
      updates := updates["display_name" := trimmed];
    }
    if req.avatarUrl.Some? {
      updates := updates["avatar_url" := req.avatarUrl.value];
    }
    if req.statsPrivacy.Some? {
      updates := updates["stats_privacy" := req.statsPrivacy.value];
    }
    assert ProfileUpdateSet(req) == Ok(updates);
    if |updates| == 0 {
      return FetchUserAndRespond(db.users, userId, fx.fetch, StatusOK, MsgProfileUnchanged, format);
    }
    reply := ProfileTransaction(db, userId, updates, fx, now, format);
  }

  /** The transaction of HandleUpdateUserProfile on the database, for a non-empty update set. */
  method ProfileTransaction(db: Database, userId: string, updates: map<string, string>, fx: SettingsFaults, now: int,
                            format: int -> string) returns (reply: Reply)
    requires db.Valid() && db.tx.None?
    requires |updates| > 0 && updates.Keys <= {"display_name", "avatar_url", "stats_privacy"}
    modifies db
    ensures db.Valid() && db.tx.None?
    ensures Outcome(db.State(), reply) == ProfileTx(old(db.State()), userId, updates, fx, now, format)
  {
    var txErr := db.BeginTx(fx.beginTx);
    if txErr.Some? {
      return ErrorResponse(StatusInternalServerError, MsgProfileFailed);
    }
    ghost var s := db.State();
    OnlyPrivacyIsRefused(updates);
    var opErr := UpdateUserProfile(db, userId, updates, now, fx.store);
    assert (opErr, db.users) == ProfileStoreEffect(s.users, userId, updates, fx.store, now);
    if opErr.Some? {
      reply := ProfileErrorReply(opErr.value);
      db.Rollback();
      return;
    }
    var commitErr := db.Commit(fx.commit);
    if commitErr.Some? {
      return ErrorResponse(StatusInternalServerError, MsgProfileSaveFailed);
    }
    reply := FetchUserAndRespond(db.users, userId, fx.fetch, StatusOK, MsgProfileOk, format);
  }

  // ---------------------------------------------------------------- HandleUnlinkAccount

  const MsgProviderRequired := "Provider name is required in the URL path"
  const MsgUnlinkFailed := "Failed to process unlink request."
  const MsgUnlinkNotFound := "The specified account to unlink was not found for your user."
  const MsgUnlinkLast := "Cannot unlink the last authentication method. Please link another account first or ensure you have an alternative login method."
  const MsgUnlinkStoreFailed := "Failed to unlink account."
  const MsgUnlinkCommitFailed := "Failed to finalize unlinking account."

  function UnlinkedMessage(providerName: string): string {
    "Account with provider '" + providerName + "' unlinked successfully."
  }

  /** The reply to a failed unlink: 404 no such identity, 400 the last one, 500 anything else. */
  function UnlinkErrorReply(e: Error): (r: Reply)
    ensures r.Json?
    ensures r.status == StatusNotFound <==> e == UserProviderIdentityNotFound
    ensures r.status == StatusBadRequest <==> e == DeleteLastProviderIdentity
    ensures r.status == StatusInternalServerError <==> e != UserProviderIdentityNotFound && e != DeleteLastProviderIdentity
  {
    if e == UserProviderIdentityNotFound then ErrorResponse(StatusNotFound, MsgUnlinkNotFound)
    else if e == DeleteLastProviderIdentity then ErrorResponse(StatusBadRequest, MsgUnlinkLast)
    else ErrorResponse(StatusInternalServerError, MsgUnlinkStoreFailed)
  }

  /** The transaction of an unlink. */
  function UnlinkTx(s: Snapshot, userId: string, providerName: string, fx: SettingsFaults): (o: Outcome)
    ensures o.reply.Json?
    ensures o.state == s || o.state == s.(identities := RemoveProviderRows(s.identities, userId, providerName))
    ensures o.reply.status == StatusOK <==>
      fx.beginTx.None? && fx.store.None? && IdentityCount(s.identities, userId) > 1 && fx.delete.None? &&
      UserHasProvider(s.identities, userId, providerName) && fx.commit.None?
    ensures o.reply.status == StatusOK ==>
      o.state == s.(identities := RemoveProviderRows(s.identities, userId, providerName)) &&
      o.reply == Respond(StatusOK, NoData, UnlinkedMessage(providerName))
    ensures o.reply.status != StatusOK ==> o.state == s
  {
    if fx.beginTx.Some? then Outcome(s, ErrorResponse(StatusInternalServerError, MsgUnlinkFailed))
    else
      var (err, identities') := DeleteIdentityEffect(s.identities, userId, providerName, fx.store, fx.delete);
      if err.Some? then Outcome(s, UnlinkErrorReply(err.value))
      else if fx.commit.Some? then Outcome(s, ErrorResponse(StatusInternalServerError, MsgUnlinkCommitFailed))
      else Outcome(s.(identities := identities'), Respond(StatusOK, NoData, UnlinkedMessage(providerName)))
  }

  /** HandleUnlinkAccount: the provider comes from the path and is checked before the session. */
  function UnlinkAccount(s: Snapshot, pathProvider: Option<string>, loadFailed: bool, values: map<string, SessionValue>,
                         fx: SettingsFaults): (o: Outcome)
    ensures o.reply.Json?
    ensures pathProvider.None? || pathProvider.value == "" ==> o == Outcome(s, ErrorResponse(StatusBadRequest, MsgProviderRequired))
    ensures pathProvider.Some? && pathProvider.value != "" && AuthenticatedUserId(loadFailed, values).Err? ==>
      o == Outcome(s, AuthenticatedUserId(loadFailed, values).error)
    ensures pathProvider.Some? && pathProvider.value != "" && AuthenticatedUserId(loadFailed, values).Ok? ==>
      o == UnlinkTx(s, values[UserIdKey].s, pathProvider.value, fx)
  {
    if pathProvider.None? || pathProvider.value == "" then Outcome(s, ErrorResponse(StatusBadRequest, MsgProviderRequired))
    else match AuthenticatedUserId(loadFailed, values)
      case Err(unauthorized) => Outcome(s, unauthorized)
      case Ok(userId) => UnlinkTx(s, userId, pathProvider.value, fx)
  }

  /**
   * Unlinking keeps the tables' constraints, and a user who had a login
   * method still has one afterwards, whatever fails.
   */
  lemma UnlinkKeepsALoginMethod(s: Snapshot, pathProvider: Option<string>, loadFailed: bool,
                                values: map<string, SessionValue>, fx: SettingsFaults, userId: string)
    requires SnapshotValid(s)
    requires IdentityCount(s.identities, userId) >= 1
    ensures var o := UnlinkAccount(s, pathProvider, loadFailed, values, fx);
      SnapshotValid(o.state) && IdentityCount(o.state.identities, userId) >= 1
  {
    var o := UnlinkAccount(s, pathProvider, loadFailed, values, fx);
    if o.state != s {
      var owner := values[UserIdKey].s;
      var p := pathProvider.value;
      assert o.state == s.(identities := RemoveProviderRows(s.identities, owner, p));
      RemoveKeepsIdentitiesValid(s.identities, s.users, owner, p);
      RemoveProviderRowsCount(s.identities, owner, p);
      AtMostOneProviderRow(s.identities, s.users, owner, p);
      if owner != userId {
        RemoveKeepsOthersCount(s.identities, owner, p, userId);
      }
    }
  }

  /** Removing one user's rows leaves every other user's count alone. */
  lemma {:induction false} RemoveKeepsOthersCount(identities: seq<ProviderIdentity>, owner: string, providerName: string,
                                                  other: string)
    requires owner != other
    ensures IdentityCount(RemoveProviderRows(identities, owner, providerName), other) == IdentityCount(identities, other)
  {
    if identities != [] {
      RemoveKeepsOthersCount(identities[1..], owner, providerName, other);
    }
  }

  /** HandleUnlinkAccount on the database. */
  method HandleUnlinkAccount(db: Database, pathProvider: Option<string>, loadFailed: bool,
                             values: map<string, SessionValue>, fx: SettingsFaults) returns (reply: Reply)
    requires db.Valid() && db.tx.None?
    modifies db
    ensures db.Valid() && db.tx.None?
    ensures Outcome(db.State(), reply) == UnlinkAccount(old(db.State()), pathProvider, loadFailed, values, fx)
  {
    if pathProvider.None? || pathProvider.value == "" {
      return ErrorResponse(StatusBadRequest, MsgProviderRequired);
    }
    var providerName := pathProvider.value;
    var auth := AuthenticatedUserId(loadFailed, values);
    if auth.Err? {
      return auth.error;
    }
    var userId := auth.value;
    var txErr := db.BeginTx(fx.beginTx);
    if txErr.Some? {
      return ErrorResponse(StatusInternalServerError, MsgUnlinkFailed);
    }
    var opErr := DeleteUserProviderIdentity(db, userId, providerName, fx.store, fx.delete);
    if opErr.Some? {
      reply := UnlinkErrorReply(opErr.value);
      db.Rollback();
      return;
    }
    var commitErr := db.Commit(fx.commit);
    if commitErr.Some? {
      return ErrorResponse(StatusInternalServerError, MsgUnlinkCommitFailed);
    }
    reply := Respond(StatusOK, NoData, UnlinkedMessage(providerName));
  }
}
