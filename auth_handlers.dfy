/**
 * The authentication handlers: starting the linking of a further provider,
 * the provider callback, and the current-user endpoint.
 *
 * The callback reconciles the account the provider reports with the users
 * and provider-identities tables inside one transaction. It decides between
 * linking the provider to the logged-in user, logging in the identity's
 * owner, adopting a user found by e-mail and registering a new user, then
 * writes the application session and redirects. Each step is a pure
 * function of the tables and the session values, and the handler is a
 * method on the database and the session proved to have exactly the
 * effect those functions describe.
 */
module AuthHandlers {
  import opened Wrappers
  import opened Text
  import opened DbUtils
  import opened Tables
  import opened UserStore
  import opened Username
  import opened ApiModels
  import opened ConvertUser
  import opened Http
  import opened Sessions

  /**
   * What can fail around the decision: each store call, starting and
   * committing the transaction, the two session saves, and a panic at the
   * end of the handler's body.
   */
  datatype CallbackFaults = CallbackFaults(
    beginTx: Option<DbError>,
    lookupIdentity: Option<DbError>,
    refreshIdentity: Option<DbError>,
    lookupEmail: Option<DbError>,
    createUser: Option<DbError>,
    fetchUser: Option<DbError>,
    createIdentity: Option<DbError>,
    lastLogin: Option<DbError>,
    commit: Option<DbError>,
    earlySaveFails: bool,
    finalSaveFails: bool,
    panics: bool)

  /**
   * The values the callback takes from the database's id generator, from
   * uuid.NewString (the username suffix) and from the clock.
   */
  datatype Fresh = Fresh(userId: string, identityId: string, usernameRnd: UuidPrefix, now: int)

  const MsgAuthFailed := "Authentication failed: "
  const MsgProviderMismatch := "Provider mismatch during authentication callback"
  const MsgBeginFailed := "Failed to process login"
  const MsgRelinkFailed := "Failed to update linked account details"
  const MsgLinkConflict := "Failed to link account due to a conflict"
  const MsgLinkLookupFailed := "Failed to process account linking due to a database error, please try again"
  const MsgLinkFetchFailed := "Failed to finalize the linking process, please try again"
  const MsgLoginFailed := "Failed to process login, please try again"
  const MsgAccountInUse := "This username or email is already in use"
  const MsgCreateAccountFailed := "Failed to create your account due to a database error"
  const MsgAttachConflict := "Failed to link authentication method due to a conflict"
  const MsgAttachFailed := "Failed to link authentication method"
  const MsgReturningFetchFailed := "Failed to process your login, please try again"
  const MsgSessionSaveFailed := "Failed to save your session, please try again"
  const MsgLinkNeedsProvider := "Provider name is required for linking"
  const MsgLinkSessionError := "Failed to initiate account linking: session error"
  const MsgLinkSaveFailed := "Failed to initiate account linking: session save error"

  function OtherOwnerMessage(provider: string): string {
    "This " + provider + " account is already associated with a different account"
  }

  // ---------------------------------------------------------------- step 2: the intent

  /** Both linking keys hold a non-nil value. */
  predicate LinkingFlagsPresent(values: map<string, SessionValue>) {
    !Lookup(values, LinkingUserIdKey).SNil? && !Lookup(values, LinkingProviderNameKey).SNil?
  }

  /** Neither linking key is in the values. */
  predicate NoLinkingFlags(values: map<string, SessionValue>) {
    LinkingUserIdKey !in values && LinkingProviderNameKey !in values
  }

  /** The flags name a user and the provider that is calling back; a non-string value reads as "". */
  predicate IsLinkingFlow(values: map<string, SessionValue>, provider: string) {
    LinkingFlagsPresent(values)
    && AsString(Lookup(values, LinkingUserIdKey)) != ""
    && AsString(Lookup(values, LinkingProviderNameKey)) != ""
    && AsString(Lookup(values, LinkingProviderNameKey)) == provider
  }

  /** A linking flow is exactly: both flags are non-empty strings and the provider flag is the calling provider. */
  lemma LinkingFlowIff(values: map<string, SessionValue>, provider: string)
    ensures IsLinkingFlow(values, provider) <==>
      LinkingUserIdKey in values && values[LinkingUserIdKey].SStr? && values[LinkingUserIdKey].s != ""
      && LinkingProviderNameKey in values && values[LinkingProviderNameKey] == SStr(provider) && provider != ""
  {
  }

  /** The decision of step 2: whether this is a linking flow, the user to link to, and where to redirect. */
  datatype Intent = Intent(linking: bool, targetUserId: string, redirectUrl: string)

  function DetectIntent(values: map<string, SessionValue>, provider: string, frontendBaseUrl: string): (i: Intent)
    ensures i.linking <==> IsLinkingFlow(values, provider)
    ensures i.linking ==>
      LinkingUserIdKey in values && i.targetUserId == values[LinkingUserIdKey].s
      && i.targetUserId != "" && i.redirectUrl == frontendBaseUrl + "/settings"
    ensures !i.linking ==> i.targetUserId == "" && i.redirectUrl == frontendBaseUrl
  {
    if IsLinkingFlow(values, provider) then
      Intent(true, AsString(Lookup(values, LinkingUserIdKey)), frontendBaseUrl + "/settings")
    else Intent(false, "", frontendBaseUrl)
  }

  /** `delete` of both linking keys; every other value stays. */
  function ClearLinkingFlags(values: map<string, SessionValue>): (r: map<string, SessionValue>)
    ensures NoLinkingFlags(r)
    ensures forall k :: k in r <==> k in values && k != LinkingUserIdKey && k != LinkingProviderNameKey
    ensures forall k :: k in r ==> r[k] == values[k]
  {
    values - {LinkingUserIdKey, LinkingProviderNameKey}
  }

  /** The values after step 2: linking flags that are present are deleted, matched or not. */
  function EarlyValues(values: map<string, SessionValue>): (r: map<string, SessionValue>)
    ensures LinkingFlagsPresent(values) ==> NoLinkingFlags(r)
    ensures !LinkingFlagsPresent(values) ==> r == values
  {
    if LinkingFlagsPresent(values) then ClearLinkingFlags(values) else values
  }

  // ---------------------------------------------------------------- step 4: resolving the user

  /**
   * What step 4 leaves behind: the tables, the error response that ends the
   * handler (if any), the application user id, and the user the session
   * will be written for.
   */
  datatype Resolution = Resolution(
    users: seq<User>,
    identities: seq<ProviderIdentity>,
    failure: Option<Reply>,
    appUserId: string,
    sessionUser: Option<User>)

  /**
   * Without a failure there is a session user, it is a row of the users table,
   * and it is the application user; a failure is always a JSON error reply.
   */
  predicate Resolved(r: Resolution) {
    && (r.failure.None? ==> r.sessionUser.Some? && r.sessionUser.value in r.users && r.sessionUser.value.userId == r.appUserId)
    && (r.failure.Some? ==> r.failure.value.Json?)
  }

  /** The identity record bound to `appUserId` for the reported account; empty details become NULL. */
  function IdentityFor(appUserId: string, goth: GothUser): (n: NewIdentity)
    ensures n.userId == appUserId && n.providerName == goth.provider && n.providerUserId == goth.userId
  {
    NewIdentity(appUserId, goth.provider, goth.userId, NullString(goth.email), NullString(goth.name), NullString(goth.avatarUrl))
  }

  /** The base of a new username: the nickname, or else the name. */
  function BaseUsername(goth: GothUser): (b: string)
    ensures goth.nickName != "" ==> b == goth.nickName
    ensures goth.nickName == "" ==> b == goth.name
  {
    if goth.nickName != "" then goth.nickName else goth.name
  }

  /** The user record registration inserts: a generated username and the provider's details. */
  function UserFor(goth: GothUser, rnd: UuidPrefix): (n: NewUser)
    ensures n.username == GenerateUniqueUsername(BaseUsername(goth), goth.email, rnd)
    ensures IsWellFormedUsername(n.username) && !IsBlank(n.username)
    ensures n.email == NullString(goth.email) && n.statsPrivacy == ""
  {
    var username := GenerateUniqueUsername(BaseUsername(goth), goth.email, rnd);
    assert username[0] != ' ';
    NewUser(username, NullString(goth.email), NullString(goth.name), NullString(goth.avatarUrl), NullText, "")
  }

  /** Re-reading the linking user after the identity is in place (auth.go lines 379-385). */
  function FinishLink(users: seq<User>, identities: seq<ProviderIdentity>, target: string, fetchFault: Option<DbError>)
    : (r: Resolution)
    ensures Resolved(r) && r.users == users && r.identities == identities && r.appUserId == target
    ensures r.failure.None? <==> fetchFault.None? && target in UserIds(users)
    ensures r.failure.Some? ==> r.failure == Some(ErrorResponse(StatusInternalServerError, MsgLinkFetchFailed))
  {
    match GetUserByID(users, target, fetchFault)
    case Ok(u) => Resolution(users, identities, None, target, Some(u))
    case Err(_) => Resolution(users, identities, Some(ErrorResponse(StatusInternalServerError, MsgLinkFetchFailed)), target, None)
  }

  /** Branch 4.1, linking the reported account to `target`, given the result of the identity lookup. */
  function LinkEffect(users: seq<User>, identities: seq<ProviderIdentity>, target: string,
                      lookup: Result<ProviderIdentity, Error>, goth: GothUser, fx: CallbackFaults, fr: Fresh)
    : (r: Resolution)
    ensures Resolved(r) && r.users == users && r.appUserId == target
    ensures r.failure.None? ==> target in UserIds(users)
  {
    match lookup
    case Ok(pi) =>
      if pi.userId == target then
        var refreshed := RefreshIdentityEffect(identities, pi.providerIdentityId, goth, fr.now, fx.refreshIdentity);
        if refreshed.0.Some? then
          Resolution(users, refreshed.1, Some(ErrorResponse(StatusInternalServerError, MsgRelinkFailed)), target, None)
        else FinishLink(users, refreshed.1, target, fx.fetchUser)
      else
        Resolution(users, identities, Some(ErrorResponse(StatusConflict, OtherOwnerMessage(goth.provider))), target, None)
    case Err(e) =>
      if e == UserProviderIdentityNotFound then
        var created := CreateIdentityEffect(identities, users, IdentityFor(target, goth), fr.identityId, fr.now, fx.createIdentity);
        if created.0.Err? then
          var reply := if created.0.error == ProviderIdentityConflict then ErrorResponse(StatusConflict, MsgLinkConflict)
                       else ErrorResponse(StatusInternalServerError, InternalServerError);
          Resolution(users, created.1, Some(reply), target, None)
        else FinishLink(users, created.1, target, fx.fetchUser)
      else
        Resolution(users, identities, Some(ErrorResponse(StatusInternalServerError, MsgLinkLookupFailed)), target, None)
  }

  /** Case 4.2.2.b: the identity record bound to the resolved user `u`. */
  function AttachIdentity(users: seq<User>, identities: seq<ProviderIdentity>, u: User, goth: GothUser,
                          fx: CallbackFaults, fr: Fresh): (r: Resolution)
    requires u in users
    ensures Resolved(r) && r.users == users && r.appUserId == u.userId
    ensures r.failure.None? ==> r.sessionUser == Some(u)
  {
    var created := CreateIdentityEffect(identities, users, IdentityFor(u.userId, goth), fr.identityId, fr.now, fx.createIdentity);
    if created.0.Err? then
      var reply := if created.0.error == ProviderIdentityConflict then ErrorResponse(StatusConflict, MsgAttachConflict)
                   else ErrorResponse(StatusInternalServerError, MsgAttachFailed);
      Resolution(users, created.1, Some(reply), u.userId, None)
    else Resolution(users, created.1, None, u.userId, Some(u))
  }

  /** Case 4.2.2.a.2: registering a new user, reading it back, and binding the identity to it. */
  function RegisterEffect(users: seq<User>, identities: seq<ProviderIdentity>, goth: GothUser, fx: CallbackFaults, fr: Fresh)
    : (r: Resolution)
    ensures Resolved(r)
    ensures r.failure.None? ==> r.appUserId == fr.userId
  {
    var created := CreateUserEffect(users, UserFor(goth, fr.usernameRnd), fr.userId, fr.now, fx.createUser);
    if created.0.Err? then
      var reply := if created.0.error == UsernameTaken || created.0.error == EmailTaken
                   then ErrorResponse(StatusConflict, MsgAccountInUse)
                   else ErrorResponse(StatusInternalServerError, MsgCreateAccountFailed);
      Resolution(created.1, identities, Some(reply), "", None)
    else FinishRegister(created.1, identities, created.0.value, goth, fx, fr)
  }

  /** The rest of case 4.2.2.a.2 once the user row is in: read it back, then bind the identity to it. */
  function FinishRegister(users: seq<User>, identities: seq<ProviderIdentity>, newUserId: string, goth: GothUser,
                          fx: CallbackFaults, fr: Fresh): (r: Resolution)
    ensures Resolved(r)
    ensures r.failure.None? ==> r.appUserId == newUserId
  {
    match GetUserByID(users, newUserId, fx.fetchUser)
    case Err(_) =>
      Resolution(users, identities, Some(ErrorResponse(StatusInternalServerError, InternalServerError)), newUserId, None)
    case Ok(u) => AttachIdentity(users, identities, u, goth, fx, fr)
  }

  /** Case 4.2.2: no identity yet; a non-blank e-mail that names a user adopts it, anything else registers. */
  function NewIdentityEffect(users: seq<User>, identities: seq<ProviderIdentity>, goth: GothUser, fx: CallbackFaults, fr: Fresh)
    : (r: Resolution)
    ensures Resolved(r)
    ensures r.failure.None? ==> r.appUserId in UserIds(users) || r.appUserId == fr.userId
  {
    var byEmail := EmailMatch(users, goth, fx);
    if byEmail.Err? && byEmail.error != UserNotFound then
      Resolution(users, identities, Some(ErrorResponse(StatusInternalServerError, MsgLoginFailed)), "", None)
    else if byEmail.Ok? then AttachIdentity(users, identities, byEmail.value, goth, fx, fr)
    else RegisterEffect(users, identities, goth, fx, fr)
  }

  /** The e-mail match of case 4.2.2: a blank provider e-mail matches no user. */
  function EmailMatch(users: seq<User>, goth: GothUser, fx: CallbackFaults): Result<User, Error> {
    if TrimSpace(goth.email) != "" then GetUserByEmail(users, goth.email, fx.lookupEmail) else Err(UserNotFound)
  }

  lemma NewIdentityAttaches(users: seq<User>, identities: seq<ProviderIdentity>, goth: GothUser, fx: CallbackFaults, fr: Fresh)
    requires EmailMatch(users, goth, fx).Ok?
    ensures NewIdentityEffect(users, identities, goth, fx, fr)
      == AttachIdentity(users, identities, EmailMatch(users, goth, fx).value, goth, fx, fr)
  {
  }

  lemma NewIdentityRegisters(users: seq<User>, identities: seq<ProviderIdentity>, goth: GothUser, fx: CallbackFaults, fr: Fresh)
    requires EmailMatch(users, goth, fx) == Err(UserNotFound)
    ensures NewIdentityEffect(users, identities, goth, fx, fr) == RegisterEffect(users, identities, goth, fx, fr)
  {
  }

  lemma NewIdentityFails(users: seq<User>, identities: seq<ProviderIdentity>, goth: GothUser, fx: CallbackFaults, fr: Fresh)
    requires EmailMatch(users, goth, fx).Err? && EmailMatch(users, goth, fx).error != UserNotFound
    ensures NewIdentityEffect(users, identities, goth, fx, fr)
      == Resolution(users, identities, Some(ErrorResponse(StatusInternalServerError, MsgLoginFailed)), "", None)
  {
  }

  /** Case 4.2.3: a returning login; a failure to refresh the identity's details is only logged. */
  function ReturningLoginEffect(users: seq<User>, identities: seq<ProviderIdentity>, pi: ProviderIdentity,
                                goth: GothUser, fx: CallbackFaults, fr: Fresh): (r: Resolution)
    ensures Resolved(r) && r.users == users && r.appUserId == pi.userId
    ensures r.failure.None? ==> pi.userId in UserIds(users)
  {
    match GetUserByID(users, pi.userId, fx.fetchUser)
    case Err(_) =>
      Resolution(users, identities, Some(ErrorResponse(StatusInternalServerError, MsgReturningFetchFailed)), pi.userId, None)
    case Ok(u) =>
      var refreshed := RefreshIdentityEffect(identities, pi.providerIdentityId, goth, fr.now, fx.refreshIdentity);
      Resolution(users, refreshed.1, None, pi.userId, Some(u))
  }

  /** Branch 4.2, login or registration, given the result of the identity lookup. */
  function LoginEffect(users: seq<User>, identities: seq<ProviderIdentity>, lookup: Result<ProviderIdentity, Error>,
                       goth: GothUser, fx: CallbackFaults, fr: Fresh): (r: Resolution)
    ensures Resolved(r)
    ensures r.failure.None? ==> r.appUserId in UserIds(users) || r.appUserId == fr.userId
  {
    if lookup.Err? && lookup.error != UserProviderIdentityNotFound then
      Resolution(users, identities, Some(ErrorResponse(StatusInternalServerError, MsgLoginFailed)), "", None)
    else if lookup.Err? then NewIdentityEffect(users, identities, goth, fx, fr)
    else ReturningLoginEffect(users, identities, lookup.value, goth, fx, fr)
  }

  /** Step 4: the identity is looked up by (provider, provider user id) first, whatever the intent. */
  function ResolveUserEffect(users: seq<User>, identities: seq<ProviderIdentity>, intent: Intent, goth: GothUser,
                             fx: CallbackFaults, fr: Fresh): (r: Resolution)
    ensures Resolved(r)
    ensures r.failure.None? ==> r.appUserId in UserIds(users) || r.appUserId == fr.userId
  {
    var lookup := GetUserProviderIdentity(identities, goth.provider, goth.userId, fx.lookupIdentity);
    if intent.linking then LinkEffect(users, identities, intent.targetUserId, lookup, goth, fx, fr)
    else LoginEffect(users, identities, lookup, goth, fx, fr)
  }

  // ---------------------------------------------------------------- steps 5 to 7 and the deferred function

  /** The session values written at step 6: the user and the label set, the linking flags removed. */
  function LoginValues(values: map<string, SessionValue>, appUserId: string, u: User): (r: map<string, SessionValue>)
    ensures NoLinkingFlags(r)
    ensures UserIdKey in r && r[UserIdKey] == SStr(appUserId)
    ensures UserNameKey in r && r[UserNameKey] == SStr(ShownName(u))
    ensures forall k :: k in values && k !in {UserIdKey, UserNameKey, LinkingUserIdKey, LinkingProviderNameKey} ==>
      k in r && r[k] == values[k]
  {
    ClearLinkingFlags(values[UserIdKey := SStr(appUserId)][UserNameKey := SStr(ShownName(u))])
  }

  /** Step 7: the default redirect (the bare front-end address) gets a trailing slash; any other is kept. */
  function FinalRedirect(url: string, frontendBaseUrl: string): (r: string)
    ensures r == url || r == url + "/"
    ensures r != url <==>
      url == frontendBaseUrl && !EndsWith(url, "/") && !Contains(url, "?")
      && !EndsWith(url, "dashboard") && !EndsWith(url, "settings")
  {
    if !EndsWith(url, "/") && !Contains(url, "?") && !EndsWith(url, "dashboard") && !EndsWith(url, "settings")
       && url == frontendBaseUrl
    then url + "/"
    else url
  }

  /**
   * What the handler's body leaves for the deferred function: the tables,
   * the session, whether an error was recorded, whether an error response
   * was written, and the writes so far.
   */
  datatype Body = Body(
    users: seq<User>,
    identities: seq<ProviderIdentity>,
    values: map<string, SessionValue>,
    saved: Option<map<string, SessionValue>>,
    failed: bool,
    responseSent: bool,
    replies: seq<Reply>)

  /**
   * Steps 6 and 7 for the resolved user `u`, after the last-login update
   * left `users`: the final session lookup fails exactly when the cookie did
   * not load; then the session is written and saved, and the redirect chosen.
   */
  function FinishLogin(users: seq<User>, identities: seq<ProviderIdentity>, values: map<string, SessionValue>,
                       loadFailed: bool, saved: Option<map<string, SessionValue>>, appUserId: string, u: User,
                       redirectUrl: string, frontendBaseUrl: string, saveFails: bool): (b: Body)
    ensures b.users == users && b.identities == identities
    ensures b.failed <==> b.responseSent
    ensures |b.replies| == 1 && (b.replies[0].Redirect? <==> !b.failed)
    ensures b.failed <==> loadFailed || saveFails
    ensures b.values == values || b.values == LoginValues(values, appUserId, u)
    ensures b.saved == saved || b.saved == Some(b.values)
    ensures !b.failed ==>
      b.values == LoginValues(values, appUserId, u) && b.saved == Some(b.values)
      && b.replies == [Redirect(FinalRedirect(redirectUrl, frontendBaseUrl))]
  {
    if loadFailed then
      Body(users, identities, values, saved, true, true, [ErrorResponse(StatusInternalServerError, InternalServerError)])
    else
      var values' := LoginValues(values, appUserId, u);
      if saveFails then
        Body(users, identities, values', saved, true, true, [ErrorResponse(StatusInternalServerError, MsgSessionSaveFailed)])
      else
        Body(users, identities, values', Some(values'), false, false, [Redirect(FinalRedirect(redirectUrl, frontendBaseUrl))])
  }

  /** Steps 4 to 7 inside the open transaction; a failed last-login update is only logged. */
  function CallbackBodyEffect(users: seq<User>, identities: seq<ProviderIdentity>, values: map<string, SessionValue>,
                              loadFailed: bool, saved: Option<map<string, SessionValue>>, intent: Intent, goth: GothUser,
                              frontendBaseUrl: string, fx: CallbackFaults, fr: Fresh): (b: Body)
    ensures b.failed <==> b.responseSent
    ensures |b.replies| == 1 && (b.replies[0].Redirect? <==> !b.failed)
    ensures b.values == values || NoLinkingFlags(b.values)
    ensures b.saved == saved || (b.saved == Some(b.values) && NoLinkingFlags(b.values))
    ensures !b.failed ==> NoLinkingFlags(b.values) && b.saved == Some(b.values)
  {
    var r := ResolveUserEffect(users, identities, intent, goth, fx, fr);
    if r.failure.Some? then Body(r.users, r.identities, values, saved, true, true, [r.failure.value])
    else if r.sessionUser.None? then
      Body(r.users, r.identities, values, saved, true, true, [ErrorResponse(StatusInternalServerError, InternalServerError)])
    else
      var users' := UpdateUserEffect(r.users, r.appUserId, LastLogin(fr.now), fx.lastLogin, LastLoginNotFound(r.appUserId)).1;
      FinishLogin(users', r.identities, values, loadFailed, saved, r.appUserId, r.sessionUser.value,
                  intent.redirectUrl, frontendBaseUrl, fx.finalSaveFails)
  }

  /** The 500 the deferred function adds when no response was written. */
  function LateReply(responseSent: bool): (late: seq<Reply>)
    ensures |late| <= 1 && (late == [] <==> responseSent)
  {
    if responseSent then [] else [ErrorResponse(StatusInternalServerError, InternalServerError)]
  }

  /** The state of the tables and of the session after the callback, and everything it wrote. */
  datatype Outcome = Outcome(
    state: Snapshot,
    values: map<string, SessionValue>,
    saved: Option<map<string, SessionValue>>,
    replies: seq<Reply>)

  /**
   * HandleOAuthCallback. `auth` is what CompleteUserAuth returns; `loadFailed`
   * says the session cookie could not be decoded. The deferred function
   * rolls back after a panic or a recorded error and commits otherwise; a late
   * 500 is written only when no response was sent, which includes the
   * path where the redirect was already written.
   */
  function OAuthCallback(s: Snapshot, values: map<string, SessionValue>, loadFailed: bool,
                         saved: Option<map<string, SessionValue>>, urlProvider: string, frontendBaseUrl: string,
                         auth: Result<GothUser, string>, fx: CallbackFaults, fr: Fresh): (o: Outcome)
    ensures |o.replies| >= 1
  {
    if auth.Err? then Outcome(s, values, saved, [ErrorResponse(StatusInternalServerError, MsgAuthFailed + auth.error)])
    else if auth.value.provider != urlProvider then
      Outcome(s, values, saved, [ErrorResponse(StatusBadRequest, MsgProviderMismatch)])
    else
      var goth := auth.value;
      var intent := DetectIntent(values, goth.provider, frontendBaseUrl);
      var values1 := EarlyValues(values);
      var saved1 := if LinkingFlagsPresent(values) && !fx.earlySaveFails then Some(values1) else saved;
      if fx.beginTx.Some? then Outcome(s, values1, saved1, [ErrorResponse(StatusInternalServerError, MsgBeginFailed)])
      else
        var b := CallbackBodyEffect(s.users, s.identities, values1, loadFailed, saved1, intent, goth, frontendBaseUrl, fx, fr);
        var late := LateReply(b.responseSent);
        if fx.panics || b.failed || fx.commit.Some? then Outcome(s, b.values, b.saved, b.replies + late)
        else Outcome(s.(users := b.users, identities := b.identities), b.values, b.saved, b.replies)
  }

  // ---------------------------------------------------------------- the handler, step by step

  /** Branch 4.1 on the database. */
  method LinkProvider(db: Database, target: string, lookup: Result<ProviderIdentity, Error>, goth: GothUser,
                      fx: CallbackFaults, fr: Fresh)
    returns (failure: Option<Reply>, appUserId: string, sessionUser: Option<User>)
    requires db.Valid() && fr.identityId !in IdentityIds(db.identities)
    modifies db`identities
    ensures db.Valid()
    ensures Resolution(db.users, db.identities, failure, appUserId, sessionUser)
      == LinkEffect(db.users, old(db.identities), target, lookup, goth, fx, fr)
  {
    appUserId := target;
    sessionUser := None;
    if lookup.Ok? {
      var existingIdentity := lookup.value;
      if existingIdentity.userId == appUserId {
        var errUpdate := UpdateUserProviderIdentityDetails(db, existingIdentity.providerIdentityId, goth, fr.now, fx.refreshIdentity);
        if errUpdate.Some? {
          return Some(ErrorResponse(StatusInternalServerError, MsgRelinkFailed)), appUserId, None;
        }
      } else {
        return Some(ErrorResponse(StatusConflict, OtherOwnerMessage(goth.provider))), appUserId, None;
      }
    } else if lookup.error == UserProviderIdentityNotFound {
      var created := CreateUserProviderIdentity(db, IdentityFor(appUserId, goth), fr.identityId, fr.now, fx.createIdentity);
      if created.Err? {
        if created.error == ProviderIdentityConflict {
          return Some(ErrorResponse(StatusConflict, MsgLinkConflict)), appUserId, None;
        }
        return Some(ErrorResponse(StatusInternalServerError, InternalServerError)), appUserId, None;
      }
    } else {
      return Some(ErrorResponse(StatusInternalServerError, MsgLinkLookupFailed)), appUserId, None;
    }
    var fetched := GetUserByID(db.users, appUserId, fx.fetchUser);
    if fetched.Err? {
      return Some(ErrorResponse(StatusInternalServerError, MsgLinkFetchFailed)), appUserId, None;
    }
    sessionUser := Some(fetched.value);
    failure := None;
  }

  /** Case 4.2.2.b on the database: the identity record bound to the resolved user. */
  method AttachIdentityTo(db: Database, u: User, goth: GothUser, fx: CallbackFaults, fr: Fresh)
    returns (failure: Option<Reply>, appUserId: string, sessionUser: Option<User>)
    requires db.Valid() && u in db.users && fr.identityId !in IdentityIds(db.identities)
    modifies db`identities
    ensures db.Valid()
    ensures Resolution(db.users, db.identities, failure, appUserId, sessionUser)
      == AttachIdentity(db.users, old(db.identities), u, goth, fx, fr)
  {
    appUserId := u.userId;
    var createdIdentity := CreateUserProviderIdentity(db, IdentityFor(appUserId, goth), fr.identityId, fr.now, fx.createIdentity);
    if createdIdentity.Err? {
      if createdIdentity.error == ProviderIdentityConflict {
        return Some(ErrorResponse(StatusConflict, MsgAttachConflict)), appUserId, None;
      }
      return Some(ErrorResponse(StatusInternalServerError, MsgAttachFailed)), appUserId, None;
    }
    return None, appUserId, Some(u);
  }

  /** Case 4.2.2.a.2 on the database: create the user, read it back, bind the identity. */
  method RegisterUser(db: Database, goth: GothUser, fx: CallbackFaults, fr: Fresh)
    returns (failure: Option<Reply>, appUserId: string, sessionUser: Option<User>)
    requires db.Valid() && fr.userId !in UserIds(db.users) && fr.identityId !in IdentityIds(db.identities)
    modifies db`users, db`identities
    ensures db.Valid()
    ensures Resolution(db.users, db.identities, failure, appUserId, sessionUser)
      == RegisterEffect(old(db.users), old(db.identities), goth, fx, fr)
  {
    var createdUser := CreateUser(db, UserFor(goth, fr.usernameRnd), fr.userId, fr.now, fx.createUser);
    if createdUser.Err? {
      if createdUser.error == UsernameTaken || createdUser.error == EmailTaken {
        return Some(ErrorResponse(StatusConflict, MsgAccountInUse)), "", None;
      }
      return Some(ErrorResponse(StatusInternalServerError, MsgCreateAccountFailed)), "", None;
    }
    appUserId := createdUser.value;
    var fetched := GetUserByID(db.users, appUserId, fx.fetchUser);
    if fetched.Err? {
      return Some(ErrorResponse(StatusInternalServerError, InternalServerError)), appUserId, None;
    }
    failure, appUserId, sessionUser := AttachIdentityTo(db, fetched.value, goth, fx, fr);
  }

  /** Case 4.2.2 on the database: adopt the user the e-mail names, or register one. */
  method LinkNewIdentity(db: Database, goth: GothUser, fx: CallbackFaults, fr: Fresh)
    returns (failure: Option<Reply>, appUserId: string, sessionUser: Option<User>)
    requires db.Valid() && fr.userId !in UserIds(db.users) && fr.identityId !in IdentityIds(db.identities)
    modifies db`users, db`identities
    ensures db.Valid()
    ensures Resolution(db.users, db.identities, failure, appUserId, sessionUser)
      == NewIdentityEffect(old(db.users), old(db.identities), goth, fx, fr)
  {
    var existingByEmail: Result<User, Error> := Err(UserNotFound);
    if TrimSpace(goth.email) != "" {
      existingByEmail := GetUserByEmail(db.users, goth.email, fx.lookupEmail);
      if existingByEmail.Err? && existingByEmail.error != UserNotFound {
        NewIdentityFails(db.users, db.identities, goth, fx, fr);
        return Some(ErrorResponse(StatusInternalServerError, MsgLoginFailed)), "", None;
      }
    }
    assert existingByEmail == EmailMatch(db.users, goth, fx);
    if existingByEmail.Ok? {
      NewIdentityAttaches(db.users, db.identities, goth, fx, fr);
      failure, appUserId, sessionUser := AttachIdentityTo(db, existingByEmail.value, goth, fx, fr);
    } else {
      NewIdentityRegisters(db.users, db.identities, goth, fx, fr);
      failure, appUserId, sessionUser := RegisterUser(db, goth, fx, fr);
    }
  }

  /** Branch 4.2 on the database. */
  method LoginOrRegister(db: Database, lookup: Result<ProviderIdentity, Error>, goth: GothUser, fx: CallbackFaults, fr: Fresh)
    returns (failure: Option<Reply>, appUserId: string, sessionUser: Option<User>)
    requires db.Valid() && fr.userId !in UserIds(db.users) && fr.identityId !in IdentityIds(db.identities)
    modifies db`users, db`identities
    ensures db.Valid()
    ensures Resolution(db.users, db.identities, failure, appUserId, sessionUser)
      == LoginEffect(old(db.users), old(db.identities), lookup, goth, fx, fr)
  {
    if lookup.Err? && lookup.error != UserProviderIdentityNotFound {
      return Some(ErrorResponse(StatusInternalServerError, MsgLoginFailed)), "", None;
    }
    if lookup.Err? {
      failure, appUserId, sessionUser := LinkNewIdentity(db, goth, fx, fr);
      return;
    }
    var existingIdentity := lookup.value;
    appUserId := existingIdentity.userId;
    var fetched := GetUserByID(db.users, appUserId, fx.fetchUser);
    if fetched.Err? {
      return Some(ErrorResponse(StatusInternalServerError, MsgReturningFetchFailed)), appUserId, None;
    }
    sessionUser := Some(fetched.value);
    var errUpdate := UpdateUserProviderIdentityDetails(db, existingIdentity.providerIdentityId, goth, fr.now, fx.refreshIdentity);
    failure := None;
  }

  /** Step 4 on the database. */
  method ResolveUser(db: Database, intent: Intent, goth: GothUser, fx: CallbackFaults, fr: Fresh)
    returns (failure: Option<Reply>, appUserId: string, sessionUser: Option<User>)
    requires db.Valid() && fr.userId !in UserIds(db.users) && fr.identityId !in IdentityIds(db.identities)
    modifies db`users, db`identities
    ensures db.Valid()
    ensures Resolution(db.users, db.identities, failure, appUserId, sessionUser)
      == ResolveUserEffect(old(db.users), old(db.identities), intent, goth, fx, fr)
  {
    var existingIdentity := GetUserProviderIdentity(db.identities, goth.provider, goth.userId, fx.lookupIdentity);
    if intent.linking {
      failure, appUserId, sessionUser := LinkProvider(db, intent.targetUserId, existingIdentity, goth, fx, fr);
    } else {
      failure, appUserId, sessionUser := LoginOrRegister(db, existingIdentity, goth, fx, fr);
    }
  }

  /** Steps 4 to 7: resolve the user, update the last login, write the session and choose the redirect. */
  method CallbackBody(db: Database, session: Session, intent: Intent, goth: GothUser, frontendBaseUrl: string,
                      fx: CallbackFaults, fr: Fresh)
    returns (failed: bool, responseSent: bool, replies: seq<Reply>)
    requires db.Valid() && fr.userId !in UserIds(db.users) && fr.identityId !in IdentityIds(db.identities)
    modifies db`users, db`identities, session`values, session`saved
    ensures db.Valid()
    ensures Body(db.users, db.identities, session.values, session.saved, failed, responseSent, replies)
      == CallbackBodyEffect(old(db.users), old(db.identities), old(session.values), session.loadFailed, old(session.saved),
                            intent, goth, frontendBaseUrl, fx, fr)
  {
    var failure, appUserId, dbUserForSession := ResolveUser(db, intent, goth, fx, fr);
    if failure.Some? {
      return true, true, [failure.value];
    }
    if dbUserForSession.None? {
      return true, true, [ErrorResponse(StatusInternalServerError, InternalServerError)];
    }
    var updateLoginTimeErr := UpdateUserLastLogin(db, appUserId, fr.now, fx.lastLogin);
    failed, responseSent, replies := WriteLoginSession(session, db.users, db.identities, appUserId, dbUserForSession.value,
                                                       intent.redirectUrl, frontendBaseUrl, fx.finalSaveFails);
  }

  /** Steps 6 and 7 on the request's session: the user's id and name go in, the linking flags go out, and it is saved. */
  method WriteLoginSession(session: Session, users: seq<User>, identities: seq<ProviderIdentity>, appUserId: string,
                           u: User, redirectUrl: string, frontendBaseUrl: string, saveFails: bool)
    returns (failed: bool, responseSent: bool, replies: seq<Reply>)
    modifies session`values, session`saved
    ensures Body(users, identities, session.values, session.saved, failed, responseSent, replies)
      == FinishLogin(users, identities, old(session.values), session.loadFailed, old(session.saved), appUserId, u,
                     redirectUrl, frontendBaseUrl, saveFails)
  {
    if session.loadFailed {
      return true, true, [ErrorResponse(StatusInternalServerError, InternalServerError)];
    }
    session.values := session.values[UserIdKey := SStr(appUserId)];
    if u.displayName.valid && u.displayName.str != "" {
      session.values := session.values[UserNameKey := SStr(u.displayName.str)];
    } else {
      session.values := session.values[UserNameKey := SStr(u.username)];
    }
    session.values := ClearLinkingFlags(session.values);
    var saveOk := session.Save(saveFails);
    if !saveOk {
      return true, true, [ErrorResponse(StatusInternalServerError, MsgSessionSaveFailed)];
    }
    var url := redirectUrl;
    if !EndsWith(url, "/") && !Contains(url, "?") && !EndsWith(url, "dashboard") && !EndsWith(url, "settings") {
      if url == frontendBaseUrl {
        url := url + "/";
      }
    }
    return false, false, [Redirect(url)];
  }

  /**
   * HandleOAuthCallback on the database and the request's session: the
   * tables, the session values, the cookie written and the writes are
   * exactly those OAuthCallback describes.
   */
  method HandleOAuthCallback(db: Database, session: Session, urlProvider: string, frontendBaseUrl: string,
                             auth: Result<GothUser, string>, fx: CallbackFaults, fr: Fresh)
    returns (replies: seq<Reply>)
    requires db.Valid() && db.tx.None?
    requires fr.userId !in UserIds(db.users) && fr.identityId !in IdentityIds(db.identities)
    modifies db, session
    ensures db.Valid() && db.tx.None?
    ensures Outcome(db.State(), session.values, session.saved, replies)
      == OAuthCallback(old(db.State()), old(session.values), session.loadFailed, old(session.saved),
                       urlProvider, frontendBaseUrl, auth, fx, fr)
  {
    if auth.Err? {
      return [ErrorResponse(StatusInternalServerError, MsgAuthFailed + auth.error)];
    }
    var gothUser := auth.value;
    if gothUser.provider != urlProvider {
      return [ErrorResponse(StatusBadRequest, MsgProviderMismatch)];
    }
    var intent := DetectIntent(session.values, gothUser.provider, frontendBaseUrl);
    if LinkingFlagsPresent(session.values) {
      session.values := ClearLinkingFlags(session.values);
      var earlySaveOk := session.Save(fx.earlySaveFails);
    }
    var txErr := db.BeginTx(fx.beginTx);
    if txErr.Some? {
      return [ErrorResponse(StatusInternalServerError, MsgBeginFailed)];
    }
    replies := CallbackTransaction(db, session, intent, gothUser, frontendBaseUrl, fx, fr);
  }

  /**
   * Steps 4 to 7 inside the open transaction, then the deferred function:
   * rollback after a panic or a recorded error, commit otherwise, and a late
   * 500 when no response was written.
   */
  method CallbackTransaction(db: Database, session: Session, intent: Intent, goth: GothUser, frontendBaseUrl: string,
                             fx: CallbackFaults, fr: Fresh)
    returns (replies: seq<Reply>)
    requires db.Valid() && db.tx == Some(db.State())
    requires fr.userId !in UserIds(db.users) && fr.identityId !in IdentityIds(db.identities)
    modifies db, session`values, session`saved
    ensures db.Valid() && db.tx.None?
    ensures var b := CallbackBodyEffect(old(db.users), old(db.identities), old(session.values), session.loadFailed,
                                        old(session.saved), intent, goth, frontendBaseUrl, fx, fr);
      session.values == b.values && session.saved == b.saved
      && if fx.panics || b.failed || fx.commit.Some? then
           db.State() == old(db.State()) && replies == b.replies + LateReply(b.responseSent)
         else
           db.State() == old(db.State()).(users := b.users, identities := b.identities) && replies == b.replies
  {
    var handleErr, responseSent;
    handleErr, responseSent, replies := CallbackBody(db, session, intent, goth, frontendBaseUrl, fx, fr);
    // The deferred function.
    if fx.panics || handleErr {
      db.Rollback();
      if !responseSent {
        replies := replies + [ErrorResponse(StatusInternalServerError, InternalServerError)];
      }
    } else {
      var commitErr := db.Commit(fx.commit);
      if commitErr.Some? && !responseSent {
        replies := replies + [ErrorResponse(StatusInternalServerError, InternalServerError)];
      }
    }
  }

  // ---------------------------------------------------------------- HandleInitiateLink

  /** The session after a handler, and what the handler wrote. */
  datatype SessionOutcome = SessionOutcome(
    values: map<string, SessionValue>,
    saved: Option<map<string, SessionValue>>,
    replies: seq<Reply>)

  /**
   * HandleInitiateLink: an authenticated user's session gets both linking
   * flags and the browser is sent to the provider (`providerAuthUrl` stands
   * for the redirect BeginAuthHandler writes). The session-error branch
   * cannot be taken: the authentication check already failed on a cookie
   * that did not load.
   */
  function InitiateLink(loadFailed: bool, values: map<string, SessionValue>, saved: Option<map<string, SessionValue>>,
                        providerName: string, saveFails: bool, providerAuthUrl: string): (o: SessionOutcome)
    ensures |o.replies| == 1
    ensures o.replies[0].Redirect? <==> !loadFailed && HasUserId(values) && providerName != "" && !saveFails
    ensures o.replies[0].Redirect? ==> o.replies[0].url == providerAuthUrl && o.saved == Some(o.values)
    ensures !loadFailed && HasUserId(values) && providerName != "" ==>
      o.values == values[LinkingUserIdKey := SStr(values[UserIdKey].s)][LinkingProviderNameKey := SStr(providerName)]
    ensures !o.replies[0].Redirect? ==> o.saved == saved
    ensures !(!loadFailed && HasUserId(values)) ==> o == SessionOutcome(values, saved, [AuthenticatedUserId(loadFailed, values).error])
  {
    var auth := AuthenticatedUserId(loadFailed, values);
    if auth.Err? then SessionOutcome(values, saved, [auth.error])
    else if providerName == "" then SessionOutcome(values, saved, [ErrorResponse(StatusBadRequest, MsgLinkNeedsProvider)])
    else if loadFailed then SessionOutcome(values, saved, [ErrorResponse(StatusInternalServerError, MsgLinkSessionError)])
    else
      var values' := values[LinkingUserIdKey := SStr(auth.value)][LinkingProviderNameKey := SStr(providerName)];
      if saveFails then SessionOutcome(values', saved, [ErrorResponse(StatusInternalServerError, MsgLinkSaveFailed)])
      else SessionOutcome(values', Some(values'), [Redirect(providerAuthUrl)])
  }

  method HandleInitiateLink(session: Session, providerName: string, saveFails: bool, providerAuthUrl: string)
    returns (replies: seq<Reply>)
    modifies session`values, session`saved
    ensures SessionOutcome(session.values, session.saved, replies)
      == InitiateLink(session.loadFailed, old(session.values), old(session.saved), providerName, saveFails, providerAuthUrl)
  {
    var sessionUserId := AuthenticatedUserId(session.loadFailed, session.values);
    if sessionUserId.Err? {
      return [sessionUserId.error];
    }
    if providerName == "" {
      return [ErrorResponse(StatusBadRequest, MsgLinkNeedsProvider)];
    }
    if session.loadFailed {
      return [ErrorResponse(StatusInternalServerError, MsgLinkSessionError)];
    }
    session.values := session.values[LinkingUserIdKey := SStr(sessionUserId.value)];
    session.values := session.values[LinkingProviderNameKey := SStr(providerName)];
    var saveOk := session.Save(saveFails);
    if !saveOk {
      return [ErrorResponse(StatusInternalServerError, MsgLinkSaveFailed)];
    }
    return [Redirect(providerAuthUrl)];
  }

  // ---------------------------------------------------------------- HandleGetCurrentUser

  const MsgMeUserNotFound := "Not authenticated: user not found"
  const MsgMeFetchFailed := "Failed to retrieve user details"
  const MsgMeConvertFailed := "Failed to process user details"
  const MsgMeOk := "Successfully retrieved user details"

  /**
   * HandleGetCurrentUser: the session's user id is checked as
   * GetAuthenticatedUserIDFromSession checks it, then the user is read from
   * the users table; a user id naming no user is a 401, like no session.
   */
  function GetCurrentUser(loadFailed: bool, values: map<string, SessionValue>, users: seq<User>,
                          fault: Option<DbError>, format: int -> string): (r: Reply)
    ensures r.Json?
    ensures r.status == StatusOK <==>
      !loadFailed && HasUserId(values) && fault.None? && values[UserIdKey].s in UserIds(users)
    ensures r.status == StatusOK ==> r.body.data.UserData? && r.body.data.user.userId == values[UserIdKey].s
    ensures r.status == StatusUnauthorized <==>
      !(!loadFailed && HasUserId(values)) || (fault.None? && values[UserIdKey].s !in UserIds(users))
    ensures r.status != StatusOK ==> r.status == StatusUnauthorized || r.status == StatusInternalServerError
  {
    var auth := AuthenticatedUserId(loadFailed, values);
    if auth.Err? then auth.error
    else match GetUserByID(users, auth.value, fault)
      case Err(e) =>
        if e == UserNotFound then ErrorResponse(StatusUnauthorized, MsgMeUserNotFound)
        else ErrorResponse(StatusInternalServerError, MsgMeFetchFailed)
      case Ok(u) =>
        match DBUserToAPIUser(Some(u), format)
        case Err(_) => ErrorResponse(StatusInternalServerError, MsgMeConvertFailed)
        case Ok(apiUser) => Respond(StatusOK, UserData(apiUser), MsgMeOk)
  }
}
