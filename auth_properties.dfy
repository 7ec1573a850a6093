/**
 * What the OAuth callback guarantees, proved about its specification
 * functions: the early provider check, the linking decision and the
 * clearing of its flags, each branch of the reconciliation, the order of
 * the lookups, the transaction discipline, and how the callback meets the
 * other two handlers that share its session.
 */
module AuthProperties {
  import opened Wrappers
  import opened Text
  import opened DbUtils
  import opened Tables
  import opened UserStore
  import opened Username
  import opened Http
  import opened Sessions
  import opened AuthHandlers

  // ---------------------------------------------------------------- before the transaction

  /** A provider mismatch is a 400 that leaves tables and session untouched, whatever would have failed later. */
  lemma ProviderMismatchTouchesNothing(s: Snapshot, values: map<string, SessionValue>, loadFailed: bool,
                                       saved: Option<map<string, SessionValue>>, urlProvider: string,
                                       frontendBaseUrl: string, auth: Result<GothUser, string>, fx: CallbackFaults, fr: Fresh)
    requires auth.Ok? && auth.value.provider != urlProvider
    ensures OAuthCallback(s, values, loadFailed, saved, urlProvider, frontendBaseUrl, auth, fx, fr)
      == Outcome(s, values, saved, [ErrorResponse(StatusBadRequest, MsgProviderMismatch)])
  {
  }

  /**
   * Linking flags never survive a callback that got past the provider check,
   * and no cookie the callback writes carries them.
   */
  lemma LinkingFlagsAreCleared(s: Snapshot, values: map<string, SessionValue>, loadFailed: bool,
                               saved: Option<map<string, SessionValue>>, urlProvider: string,
                               frontendBaseUrl: string, auth: Result<GothUser, string>, fx: CallbackFaults, fr: Fresh)
    requires auth.Ok? && auth.value.provider == urlProvider
    ensures var o := OAuthCallback(s, values, loadFailed, saved, urlProvider, frontendBaseUrl, auth, fx, fr);
      (LinkingFlagsPresent(values) ==> NoLinkingFlags(o.values))
      && (o.saved != saved ==> o.saved.Some? && NoLinkingFlags(o.saved.value))
      && (o.replies[0].Redirect? ==> NoLinkingFlags(o.values) && o.saved == Some(o.values))
  {
    if fx.beginTx.None? {
      CallbackKeepsBodySession(s, values, loadFailed, saved, urlProvider, frontendBaseUrl, auth, fx, fr);
    }
  }

  /** Inside the transaction, the session and the first write are those steps 4 to 7 left. */
  lemma CallbackKeepsBodySession(s: Snapshot, values: map<string, SessionValue>, loadFailed: bool,
                                 saved: Option<map<string, SessionValue>>, urlProvider: string,
                                 frontendBaseUrl: string, auth: Result<GothUser, string>, fx: CallbackFaults, fr: Fresh)
    requires auth.Ok? && auth.value.provider == urlProvider && fx.beginTx.None?
    ensures var values1 := EarlyValues(values);
      var saved1 := if LinkingFlagsPresent(values) && !fx.earlySaveFails then Some(values1) else saved;
      var b := CallbackBodyEffect(s.users, s.identities, values1, loadFailed, saved1,
                                  DetectIntent(values, auth.value.provider, frontendBaseUrl), auth.value, frontendBaseUrl, fx, fr);
      var o := OAuthCallback(s, values, loadFailed, saved, urlProvider, frontendBaseUrl, auth, fx, fr);
      o.values == b.values && o.saved == b.saved && o.replies[0] == b.replies[0]
      && o.replies == b.replies + (if fx.panics || b.failed || fx.commit.Some? then LateReply(b.responseSent) else [])
  {
  }

  // ---------------------------------------------------------------- the linking branch

  /** The identity the provider account already has, when the lookup can succeed. */
  function Existing(identities: seq<ProviderIdentity>, goth: GothUser): Option<ProviderIdentity> {
    FindIdentity(identities, goth.provider, goth.userId)
  }

  /** Every identity belongs to a user of the table. */
  lemma OwnerExists(identities: seq<ProviderIdentity>, users: seq<User>, pi: ProviderIdentity)
    requires IdentitiesValid(identities, users) && pi in identities
    ensures pi.userId in UserIds(users)
  {
    var k :| 0 <= k < |identities| && identities[k] == pi;
  }

  lemma IdentityIdPresent(identities: seq<ProviderIdentity>, pi: ProviderIdentity)
    requires pi in identities
    ensures pi.providerIdentityId in IdentityIds(identities)
  {
  }

  /**
   * Re-linking an account the target user already owns only refreshes the
   * identity's details: no user or identity is created, a failed refresh is
   * fatal, and otherwise the outcome depends only on reading the user back.
   */
  lemma RelinkOnlyRefreshes(users: seq<User>, identities: seq<ProviderIdentity>, intent: Intent, goth: GothUser,
                            fx: CallbackFaults, fr: Fresh)
    requires intent.linking && fx.lookupIdentity.None? && IdentitiesValid(identities, users)
    requires Existing(identities, goth).Some? && Existing(identities, goth).value.userId == intent.targetUserId
    ensures var pi := Existing(identities, goth).value;
      var r := ResolveUserEffect(users, identities, intent, goth, fx, fr);
      r.users == users && r.appUserId == intent.targetUserId
      && IdentityIds(r.identities) == IdentityIds(identities)
      && (fx.refreshIdentity.Some? ==>
            r.failure == Some(ErrorResponse(StatusInternalServerError, MsgRelinkFailed)))
      && (fx.refreshIdentity.None? ==>
            r.identities == RefreshIdentityRows(identities, pi.providerIdentityId, goth, fr.now)
            && (r.failure.None? <==> fx.fetchUser.None?))
  {
    var pi := Existing(identities, goth).value;
    OwnerExists(identities, users, pi);
    IdentityIdPresent(identities, pi);
    RefreshKeepsIdentitiesValid(identities, users, pi.providerIdentityId, goth, fr.now);
  }

  /** An account owned by someone else is a 409 and nothing changes. */
  lemma LinkToOtherOwnerIsConflict(users: seq<User>, identities: seq<ProviderIdentity>, intent: Intent, goth: GothUser,
                                   fx: CallbackFaults, fr: Fresh)
    requires intent.linking && fx.lookupIdentity.None?
    requires Existing(identities, goth).Some? && Existing(identities, goth).value.userId != intent.targetUserId
    ensures ResolveUserEffect(users, identities, intent, goth, fx, fr)
      == Resolution(users, identities, Some(ErrorResponse(StatusConflict, OtherOwnerMessage(goth.provider))),
                    intent.targetUserId, None)
  {
  }

  /**
   * An account with no identity yet is bound to the target user: exactly
   * one identity row is added, for the target, unless the insert is refused.
   */
  lemma LinkAbsentCreatesForTarget(users: seq<User>, identities: seq<ProviderIdentity>, intent: Intent, goth: GothUser,
                                   fx: CallbackFaults, fr: Fresh)
    requires intent.linking && fx.lookupIdentity.None? && Existing(identities, goth).None?
    ensures var r := ResolveUserEffect(users, identities, intent, goth, fx, fr);
      var row := NewIdentityRow(IdentityFor(intent.targetUserId, goth), fr.identityId, fr.now);
      r.users == users && r.appUserId == intent.targetUserId
      && (r.failure.None? <==>
            fx.createIdentity.None? && !UserHasProvider(identities, intent.targetUserId, goth.provider)
            && intent.targetUserId in UserIds(users) && fx.fetchUser.None?)
      && (fx.createIdentity.None? && !UserHasProvider(identities, intent.targetUserId, goth.provider)
          && intent.targetUserId in UserIds(users)
          ==> r.identities == identities + [row])
      && (r.identities != identities ==> r.identities == identities + [row])
      && (fx.createIdentity.None? && UserHasProvider(identities, intent.targetUserId, goth.provider) ==>
            r.failure == Some(ErrorResponse(StatusConflict, MsgLinkConflict)))
  {
  }

  /** Any other failure of the identity lookup ends a linking flow with a 500 and no change. */
  lemma LinkLookupErrorIsFatal(users: seq<User>, identities: seq<ProviderIdentity>, intent: Intent, goth: GothUser,
                               fx: CallbackFaults, fr: Fresh)
    requires intent.linking && fx.lookupIdentity.Some?
    ensures ResolveUserEffect(users, identities, intent, goth, fx, fr)
      == Resolution(users, identities, Some(ErrorResponse(StatusInternalServerError, MsgLinkLookupFailed)),
                    intent.targetUserId, None)
  {
  }

  // ---------------------------------------------------------------- the login branch

  /**
   * A returning login names the identity's owner and creates nothing. The
   * refresh of the identity's details cannot make the login fail.
   */
  lemma ReturningLoginNamesOwner(users: seq<User>, identities: seq<ProviderIdentity>, intent: Intent, goth: GothUser,
                                 fx: CallbackFaults, fr: Fresh)
    requires !intent.linking && fx.lookupIdentity.None? && IdentitiesValid(identities, users)
    requires Existing(identities, goth).Some?
    ensures var pi := Existing(identities, goth).value;
      var r := ResolveUserEffect(users, identities, intent, goth, fx, fr);
      r.users == users && r.appUserId == pi.userId
      && IdentityIds(r.identities) == IdentityIds(identities)
      && (r.failure.None? <==> fx.fetchUser.None?)
      && (r.failure.None? ==> r.sessionUser == FindUserById(users, pi.userId))
  {
    var pi := Existing(identities, goth).value;
    OwnerExists(identities, users, pi);
    RefreshKeepsIdentitiesValid(identities, users, pi.providerIdentityId, goth, fr.now);
  }

  /**
   * A new provider account whose non-blank e-mail names a user adopts that
   * user: no user is created and exactly one identity, bound to it, is added.
   */
  lemma EmailMatchAdoptsUser(users: seq<User>, identities: seq<ProviderIdentity>, intent: Intent, goth: GothUser,
                             fx: CallbackFaults, fr: Fresh)
    requires !intent.linking && fx.lookupIdentity.None? && fx.lookupEmail.None? && Existing(identities, goth).None?
    requires TrimSpace(goth.email) != "" && FindUserByEmail(users, goth.email).Some?
    ensures var u := FindUserByEmail(users, goth.email).value;
      var r := ResolveUserEffect(users, identities, intent, goth, fx, fr);
      r.users == users && r.appUserId == u.userId
      && (r.failure.None? <==> fx.createIdentity.None? && !UserHasProvider(identities, u.userId, goth.provider))
      && (r.failure.None? ==>
            r.sessionUser == Some(u)
            && r.identities == identities + [NewIdentityRow(IdentityFor(u.userId, goth), fr.identityId, fr.now)])
      && (r.failure.Some? ==> r.identities == identities)
  {
    var u := FindUserByEmail(users, goth.email).value;
    UnlinkedLoginIsNewIdentity(users, identities, intent, goth, fx, fr);
    EmailMatchIsAttach(users, identities, goth, fx, fr);
    AttachToExistingUser(users, identities, u, goth, fx, fr);
  }

  /** A login whose provider account has no identity yet goes on to step 4.2.2, whatever the intent's other fields. */
  lemma UnlinkedLoginIsNewIdentity(users: seq<User>, identities: seq<ProviderIdentity>, intent: Intent, goth: GothUser,
                                   fx: CallbackFaults, fr: Fresh)
    requires !intent.linking && fx.lookupIdentity.None? && Existing(identities, goth).None?
    ensures ResolveUserEffect(users, identities, intent, goth, fx, fr) == NewIdentityEffect(users, identities, goth, fx, fr)
  {
    var lookup := GetUserProviderIdentity(identities, goth.provider, goth.userId, fx.lookupIdentity);
    assert lookup == Err(UserProviderIdentityNotFound);
    assert LoginEffect(users, identities, lookup, goth, fx, fr) == NewIdentityEffect(users, identities, goth, fx, fr);
  }

  /** Without an identity, a non-blank e-mail that names a user leads to binding the identity to that user. */
  lemma EmailMatchIsAttach(users: seq<User>, identities: seq<ProviderIdentity>, goth: GothUser,
                           fx: CallbackFaults, fr: Fresh)
    requires fx.lookupEmail.None? && TrimSpace(goth.email) != "" && FindUserByEmail(users, goth.email).Some?
    ensures FindUserByEmail(users, goth.email).value in users
    ensures NewIdentityEffect(users, identities, goth, fx, fr)
      == AttachIdentity(users, identities, FindUserByEmail(users, goth.email).value, goth, fx, fr)
  {
    EmailLookupFindsRow(users, goth.email);
  }

  /** With no driver failure, the e-mail lookup returns the first row with that address. */
  lemma EmailLookupFindsRow(users: seq<User>, email: string)
    requires FindUserByEmail(users, email).Some?
    ensures GetUserByEmail(users, email, None) == Ok(FindUserByEmail(users, email).value)
  {
  }

  /** Binding the identity to a user of the table adds exactly its row, unless the user already has this provider. */
  lemma AttachToExistingUser(users: seq<User>, identities: seq<ProviderIdentity>, u: User, goth: GothUser,
                             fx: CallbackFaults, fr: Fresh)
    requires u in users
    ensures var r := AttachIdentity(users, identities, u, goth, fx, fr);
      ProviderAccountLinked(identities, goth.provider, goth.userId) ==> r.failure.Some?
    ensures var r := AttachIdentity(users, identities, u, goth, fx, fr);
      r.users == users && r.appUserId == u.userId
      && (r.failure.None? <==> fx.createIdentity.None? && !UserHasProvider(identities, u.userId, goth.provider)
                               && !ProviderAccountLinked(identities, goth.provider, goth.userId))
      && (r.failure.None? ==>
            r.sessionUser == Some(u)
            && r.identities == identities + [NewIdentityRow(IdentityFor(u.userId, goth), fr.identityId, fr.now)])
      && (r.failure.Some? ==> r.identities == identities)
  {
    assert u.userId in UserIds(users);
  }

  /** Nobody in the table could own this identity yet: the new user id is fresh. */
  lemma FreshUserHasNoProvider(identities: seq<ProviderIdentity>, users: seq<User>, userId: string, providerName: string)
    requires IdentitiesValid(identities, users) && userId !in UserIds(users)
    ensures !UserHasProvider(identities, userId, providerName)
  {
    forall i | 0 <= i < |identities|
      ensures !HasProvider(identities[i], userId, providerName)
    {
    }
  }

  /**
   * A new provider account that no user's e-mail matches registers exactly
   * one user, with a generated username, and binds exactly one identity to
   * it; a username or e-mail already in use is a 409 that adds nothing.
   */
  lemma NoMatchRegistersOneUser(users: seq<User>, identities: seq<ProviderIdentity>, intent: Intent, goth: GothUser,
                                fx: CallbackFaults, fr: Fresh)
    requires !intent.linking && fx.lookupIdentity.None? && Existing(identities, goth).None?
    requires TrimSpace(goth.email) == "" || (fx.lookupEmail.None? && FindUserByEmail(users, goth.email).None?)
    requires UsersValid(users) && IdentitiesValid(identities, users) && fr.userId !in UserIds(users)
    ensures var nu := UserFor(goth, fr.usernameRnd);
      var row := NewUserRow(nu, fr.userId, fr.now);
      var inserted := fx.createUser.None? && !UsernameInUse(users, nu.username) && !EmailInUse(users, nu.email);
      var r := ResolveUserEffect(users, identities, intent, goth, fx, fr);
      (inserted ==> r.users == users + [row])
      && (!inserted ==> r.users == users && r.identities == identities && r.failure.Some?)
      && (fx.createUser.None? && (UsernameInUse(users, nu.username) || EmailInUse(users, nu.email)) ==>
            r.failure == Some(ErrorResponse(StatusConflict, MsgAccountInUse)))
      && (inserted && fx.fetchUser.None? && fx.createIdentity.None? ==>
            r.failure.None? && r.appUserId == fr.userId && r.sessionUser == Some(row)
            && r.identities == identities + [NewIdentityRow(IdentityFor(fr.userId, goth), fr.identityId, fr.now)])
      && row.username == GenerateUniqueUsername(BaseUsername(goth), goth.email, fr.usernameRnd)
  {
    NoMatchIsRegistration(users, identities, intent, goth, fx, fr);
    RegistrationAddsOneUser(users, identities, goth, fx, fr);
    RegistrationBindsIdentity(users, identities, goth, fx, fr);
  }

  /** Without an identity and without a matching e-mail, step 4 is the registration. */
  lemma NoMatchIsRegistration(users: seq<User>, identities: seq<ProviderIdentity>, intent: Intent, goth: GothUser,
                              fx: CallbackFaults, fr: Fresh)
    requires !intent.linking && fx.lookupIdentity.None? && Existing(identities, goth).None?
    requires TrimSpace(goth.email) == "" || (fx.lookupEmail.None? && FindUserByEmail(users, goth.email).None?)
    ensures ResolveUserEffect(users, identities, intent, goth, fx, fr) == RegisterEffect(users, identities, goth, fx, fr)
  {
    var lookup := GetUserProviderIdentity(identities, goth.provider, goth.userId, fx.lookupIdentity);
    assert lookup == Err(UserProviderIdentityNotFound);
    if TrimSpace(goth.email) != "" {
      assert GetUserByEmail(users, goth.email, fx.lookupEmail) == Err(UserNotFound);
    }
    assert LoginEffect(users, identities, lookup, goth, fx, fr) == NewIdentityEffect(users, identities, goth, fx, fr);
  }

  /** The registration inserts exactly the generated row, or nothing and fails. */
  lemma RegistrationAddsOneUser(users: seq<User>, identities: seq<ProviderIdentity>, goth: GothUser,
                                fx: CallbackFaults, fr: Fresh)
    ensures var nu := UserFor(goth, fr.usernameRnd);
      var inserted := fx.createUser.None? && !UsernameInUse(users, nu.username) && !EmailInUse(users, nu.email);
      var r := RegisterEffect(users, identities, goth, fx, fr);
      (inserted ==> r.users == users + [NewUserRow(nu, fr.userId, fr.now)])
      && (!inserted ==> r.users == users && r.identities == identities && r.failure.Some?)
      && (fx.createUser.None? && (UsernameInUse(users, nu.username) || EmailInUse(users, nu.email)) ==>
            r.failure == Some(ErrorResponse(StatusConflict, MsgAccountInUse)))
  {
    var nu := UserFor(goth, fr.usernameRnd);
    var created := CreateUserEffect(users, nu, fr.userId, fr.now, fx.createUser);
    if created.0.Ok? {
      RegisterOnInsert(users, identities, goth, fx, fr);
    } else {
      RegisterOnRefusedInsert(users, identities, goth, fx, fr);
    }
  }

  /** After the insert, the registration never changes the users table again. */
  lemma RegisterOnInsert(users: seq<User>, identities: seq<ProviderIdentity>, goth: GothUser,
                         fx: CallbackFaults, fr: Fresh)
    requires CreateUserEffect(users, UserFor(goth, fr.usernameRnd), fr.userId, fr.now, fx.createUser).0.Ok?
    ensures RegisterEffect(users, identities, goth, fx, fr).users
      == CreateUserEffect(users, UserFor(goth, fr.usernameRnd), fr.userId, fr.now, fx.createUser).1
  {
    var created := CreateUserEffect(users, UserFor(goth, fr.usernameRnd), fr.userId, fr.now, fx.createUser);
    var fetched := GetUserByID(created.1, created.0.value, fx.fetchUser);
    if fetched.Ok? {
      var a := AttachIdentity(created.1, identities, fetched.value, goth, fx, fr);
      assert a.users == created.1;
    }
  }

  /** A refused insert ends the registration with both tables unchanged; a taken name or e-mail is a 409. */
  lemma RegisterOnRefusedInsert(users: seq<User>, identities: seq<ProviderIdentity>, goth: GothUser,
                                fx: CallbackFaults, fr: Fresh)
    requires CreateUserEffect(users, UserFor(goth, fr.usernameRnd), fr.userId, fr.now, fx.createUser).0.Err?
    ensures var e := CreateUserEffect(users, UserFor(goth, fr.usernameRnd), fr.userId, fr.now, fx.createUser).0.error;
      var r := RegisterEffect(users, identities, goth, fx, fr);
      r.users == users && r.identities == identities && r.failure.Some?
      && (e == UsernameTaken || e == EmailTaken ==> r.failure == Some(ErrorResponse(StatusConflict, MsgAccountInUse)))
  {
  }

  /** When nothing fails, the registered user is the session user and exactly one identity is bound to it. */
  lemma RegistrationBindsIdentity(users: seq<User>, identities: seq<ProviderIdentity>, goth: GothUser,
                                  fx: CallbackFaults, fr: Fresh)
    requires Existing(identities, goth).None?
    requires UsersValid(users) && IdentitiesValid(identities, users) && fr.userId !in UserIds(users)
    ensures var nu := UserFor(goth, fr.usernameRnd);
      var row := NewUserRow(nu, fr.userId, fr.now);
      var r := RegisterEffect(users, identities, goth, fx, fr);
      fx.createUser.None? && !UsernameInUse(users, nu.username) && !EmailInUse(users, nu.email)
      && fx.fetchUser.None? && fx.createIdentity.None? ==>
        r.failure.None? && r.appUserId == fr.userId && r.sessionUser == Some(row)
        && r.identities == identities + [NewIdentityRow(IdentityFor(fr.userId, goth), fr.identityId, fr.now)]
  {
    var nu := UserFor(goth, fr.usernameRnd);
    var created := CreateUserEffect(users, nu, fr.userId, fr.now, fx.createUser);
    if created.0.Ok? && fx.fetchUser.None? && fx.createIdentity.None? {
      var row := NewUserRow(nu, fr.userId, fr.now);
      CreatedUserReadsBack(users, nu, fr.userId, fr.now, fx.createUser);
      assert GetUserByID(created.1, created.0.value, fx.fetchUser) == Ok(row);
      FreshUserHasNoProvider(identities, users, fr.userId, goth.provider);
      assert !ProviderAccountLinked(identities, goth.provider, goth.userId) by {
        assert GetUserProviderIdentity(identities, goth.provider, goth.userId, None) == Err(UserProviderIdentityNotFound);
      }
      assert fr.userId in UserIds(created.1) by {
        assert created.1[|users|].userId == fr.userId;
      }
      assert RegisterEffect(users, identities, goth, fx, fr) == AttachIdentity(created.1, identities, row, goth, fx, fr);
    }
  }

  /**
   * The identity lookup comes first: when it fails or finds the account,
   * and in every linking flow, neither the e-mail lookup nor the user insert
   * nor the values for a new user have any influence.
   */
  lemma IdentityLookupComesFirst(users: seq<User>, identities: seq<ProviderIdentity>, intent: Intent, goth: GothUser,
                                 fx: CallbackFaults, fr: Fresh, lookupEmail: Option<DbError>, createUser: Option<DbError>,
                                 userId: string, rnd: UuidPrefix)
    requires intent.linking || fx.lookupIdentity.Some? || Existing(identities, goth).Some?
    ensures ResolveUserEffect(users, identities, intent, goth, fx, fr)
      == ResolveUserEffect(users, identities, intent, goth, fx.(lookupEmail := lookupEmail, createUser := createUser),
                           fr.(userId := userId, usernameRnd := rnd))
    ensures ResolveUserEffect(users, identities, intent, goth, fx, fr).users == users
    ensures !intent.linking && fx.lookupIdentity.Some? ==>
      ResolveUserEffect(users, identities, intent, goth, fx, fr)
        == Resolution(users, identities, Some(ErrorResponse(StatusInternalServerError, MsgLoginFailed)), "", None)
  {
  }

  // ---------------------------------------------------------------- the transaction and the session

  /** The resolution step 4 reaches for a callback that got past the provider check. */
  function StepFour(s: Snapshot, values: map<string, SessionValue>, frontendBaseUrl: string, goth: GothUser,
                    fx: CallbackFaults, fr: Fresh): Resolution
  {
    ResolveUserEffect(s.users, s.identities, DetectIntent(values, goth.provider, frontendBaseUrl), goth, fx, fr)
  }

  /** The tables of a committed callback: step 4's, with the last login recorded unless that update failed. */
  function CommittedState(s: Snapshot, r: Resolution, fx: CallbackFaults, fr: Fresh): Snapshot {
    s.(users := UpdateUserEffect(r.users, r.appUserId, LastLogin(fr.now), fx.lastLogin, LastLoginNotFound(r.appUserId)).1,
       identities := r.identities)
  }

  /**
   * A failure in step 4 is the only write, and the transaction is rolled
   * back: the tables are as they were.
   */
  lemma FailedResolutionRollsBack(s: Snapshot, values: map<string, SessionValue>, loadFailed: bool,
                                  saved: Option<map<string, SessionValue>>, urlProvider: string,
                                  frontendBaseUrl: string, auth: Result<GothUser, string>, fx: CallbackFaults, fr: Fresh)
    requires auth.Ok? && auth.value.provider == urlProvider && fx.beginTx.None?
    requires StepFour(s, values, frontendBaseUrl, auth.value, fx, fr).failure.Some?
    ensures var o := OAuthCallback(s, values, loadFailed, saved, urlProvider, frontendBaseUrl, auth, fx, fr);
      o.state == s && o.replies == [StepFour(s, values, frontendBaseUrl, auth.value, fx, fr).failure.value]
      && o.values == EarlyValues(values)
  {
  }

  /**
   * A callback whose step 4 succeeds and whose session loads and saves
   * writes the session for the resolved user and redirects. The tables
   * change only when there was no panic and the commit succeeded; otherwise
   * they are rolled back and a second, superfluous 500 follows the redirect.
   */
  lemma SuccessfulCallback(s: Snapshot, values: map<string, SessionValue>, saved: Option<map<string, SessionValue>>,
                           urlProvider: string, frontendBaseUrl: string, auth: Result<GothUser, string>,
                           fx: CallbackFaults, fr: Fresh)
    requires auth.Ok? && auth.value.provider == urlProvider && fx.beginTx.None? && !fx.finalSaveFails
    requires StepFour(s, values, frontendBaseUrl, auth.value, fx, fr).failure.None?
    ensures var r := StepFour(s, values, frontendBaseUrl, auth.value, fx, fr);
      var intent := DetectIntent(values, auth.value.provider, frontendBaseUrl);
      var o := OAuthCallback(s, values, false, saved, urlProvider, frontendBaseUrl, auth, fx, fr);
      var redirect := Redirect(FinalRedirect(intent.redirectUrl, frontendBaseUrl));
      o.values == LoginValues(EarlyValues(values), r.appUserId, r.sessionUser.value) && o.saved == Some(o.values)
      && (!fx.panics && fx.commit.None? ==> o.state == CommittedState(s, r, fx, fr) && o.replies == [redirect])
      && (fx.panics || fx.commit.Some? ==>
            o.state == s && o.replies == [redirect, ErrorResponse(StatusInternalServerError, InternalServerError)])
  {
  }

  /** The tables change only through a committed, successful callback. */
  lemma ChangesOnlyWhenCommitted(s: Snapshot, values: map<string, SessionValue>, loadFailed: bool,
                                 saved: Option<map<string, SessionValue>>, urlProvider: string,
                                 frontendBaseUrl: string, auth: Result<GothUser, string>, fx: CallbackFaults, fr: Fresh)
    ensures var o := OAuthCallback(s, values, loadFailed, saved, urlProvider, frontendBaseUrl, auth, fx, fr);
      o.state != s ==>
        auth.Ok? && fx.beginTx.None? && !fx.panics && fx.commit.None? && !loadFailed && !fx.finalSaveFails
        && o.replies == [Redirect(FinalRedirect(DetectIntent(values, auth.value.provider, frontendBaseUrl).redirectUrl,
                                                frontendBaseUrl))]
  {
  }

  /** A failed last-login update changes nothing the client or the session sees. */
  lemma LastLoginFailureIsIgnored(s: Snapshot, values: map<string, SessionValue>, loadFailed: bool,
                                  saved: Option<map<string, SessionValue>>, urlProvider: string,
                                  frontendBaseUrl: string, auth: Result<GothUser, string>, fx: CallbackFaults, fr: Fresh)
    ensures var o := OAuthCallback(s, values, loadFailed, saved, urlProvider, frontendBaseUrl, auth, fx, fr);
      var o' := OAuthCallback(s, values, loadFailed, saved, urlProvider, frontendBaseUrl, auth, fx.(lastLogin := None), fr);
      o.replies == o'.replies && o.values == o'.values && o.saved == o'.saved
  {
    var fx' := fx.(lastLogin := None);
    assert fx'.beginTx == fx.beginTx && fx'.earlySaveFails == fx.earlySaveFails
      && fx'.panics == fx.panics && fx'.commit == fx.commit;
    if auth.Ok? && auth.value.provider == urlProvider && fx.beginTx.None? {
      var goth := auth.value;
      var intent := DetectIntent(values, goth.provider, frontendBaseUrl);
      var values1 := EarlyValues(values);
      var saved1 := if LinkingFlagsPresent(values) && !fx.earlySaveFails then Some(values1) else saved;
      BodyIgnoresLastLogin(s.users, s.identities, values1, loadFailed, saved1, intent, goth, frontendBaseUrl, fx, fr);
      CallbackKeepsBodySession(s, values, loadFailed, saved, urlProvider, frontendBaseUrl, auth, fx, fr);
      CallbackKeepsBodySession(s, values, loadFailed, saved, urlProvider, frontendBaseUrl, auth, fx', fr);
    }
  }

  /** Without the tables, steps 4 to 7 look the same whatever the last-login update did. */
  lemma BodyIgnoresLastLogin(users: seq<User>, identities: seq<ProviderIdentity>, values: map<string, SessionValue>,
                             loadFailed: bool, saved: Option<map<string, SessionValue>>, intent: Intent, goth: GothUser,
                             frontendBaseUrl: string, fx: CallbackFaults, fr: Fresh)
    ensures var b := CallbackBodyEffect(users, identities, values, loadFailed, saved, intent, goth, frontendBaseUrl, fx, fr);
      var b' := CallbackBodyEffect(users, identities, values, loadFailed, saved, intent, goth, frontendBaseUrl,
                                   fx.(lastLogin := None), fr);
      b.values == b'.values && b.saved == b'.saved && b.replies == b'.replies && b.failed == b'.failed
      && b.responseSent == b'.responseSent
  {
    var fx' := fx.(lastLogin := None);
    assert fx'.finalSaveFails == fx.finalSaveFails;
    ResolveIgnoresLastLogin(users, identities, intent, goth, fx, fr, None);
    var r := ResolveUserEffect(users, identities, intent, goth, fx, fr);
    if r.failure.None? && r.sessionUser.Some? {
      FinishLoginIgnoresUsers(UpdateUserEffect(r.users, r.appUserId, LastLogin(fr.now), fx.lastLogin, LastLoginNotFound(r.appUserId)).1,
                              UpdateUserEffect(r.users, r.appUserId, LastLogin(fr.now), None, LastLoginNotFound(r.appUserId)).1,
                              r.identities, values, loadFailed, saved, r.appUserId, r.sessionUser.value,
                              intent.redirectUrl, frontendBaseUrl, fx.finalSaveFails);
    }
  }

  /** Step 4 never reads the outcome of the last-login update. */
  lemma ResolveIgnoresLastLogin(users: seq<User>, identities: seq<ProviderIdentity>, intent: Intent, goth: GothUser,
                                fx: CallbackFaults, fr: Fresh, lastLogin: Option<DbError>)
    ensures ResolveUserEffect(users, identities, intent, goth, fx, fr)
      == ResolveUserEffect(users, identities, intent, goth, fx.(lastLogin := lastLogin), fr)
  {
    var lookup := GetUserProviderIdentity(identities, goth.provider, goth.userId, fx.lookupIdentity);
    if intent.linking {
      LinkIgnoresLastLogin(users, identities, intent.targetUserId, lookup, goth, fx, fr, lastLogin);
    } else {
      LoginIgnoresLastLogin(users, identities, lookup, goth, fx, fr, lastLogin);
    }
  }

  lemma LinkIgnoresLastLogin(users: seq<User>, identities: seq<ProviderIdentity>, target: string,
                             lookup: Result<ProviderIdentity, Error>, goth: GothUser, fx: CallbackFaults, fr: Fresh,
                             lastLogin: Option<DbError>)
    ensures LinkEffect(users, identities, target, lookup, goth, fx, fr)
      == LinkEffect(users, identities, target, lookup, goth, fx.(lastLogin := lastLogin), fr)
  {
  }

  lemma LoginIgnoresLastLogin(users: seq<User>, identities: seq<ProviderIdentity>, lookup: Result<ProviderIdentity, Error>,
                              goth: GothUser, fx: CallbackFaults, fr: Fresh, lastLogin: Option<DbError>)
    ensures LoginEffect(users, identities, lookup, goth, fx, fr)
      == LoginEffect(users, identities, lookup, goth, fx.(lastLogin := lastLogin), fr)
  {
    if lookup.Err? && lookup.error == UserProviderIdentityNotFound {
      NewIdentityIgnoresLastLogin(users, identities, goth, fx, fr, lastLogin);
    } else if lookup.Ok? {
      assert ReturningLoginEffect(users, identities, lookup.value, goth, fx, fr)
        == ReturningLoginEffect(users, identities, lookup.value, goth, fx.(lastLogin := lastLogin), fr);
    }
  }

  lemma NewIdentityIgnoresLastLogin(users: seq<User>, identities: seq<ProviderIdentity>, goth: GothUser,
                                    fx: CallbackFaults, fr: Fresh, lastLogin: Option<DbError>)
    ensures NewIdentityEffect(users, identities, goth, fx, fr)
      == NewIdentityEffect(users, identities, goth, fx.(lastLogin := lastLogin), fr)
  {
    var byEmail := EmailMatch(users, goth, fx);
    if byEmail.Ok? {
      AttachIgnoresLastLogin(users, identities, byEmail.value, goth, fx, fr, lastLogin);
      NewIdentityAttaches(users, identities, goth, fx, fr);
      NewIdentityAttaches(users, identities, goth, fx.(lastLogin := lastLogin), fr);
    } else if byEmail.error == UserNotFound {
      RegisterIgnoresLastLogin(users, identities, goth, fx, fr, lastLogin);
      NewIdentityRegisters(users, identities, goth, fx, fr);
      NewIdentityRegisters(users, identities, goth, fx.(lastLogin := lastLogin), fr);
    } else {
      NewIdentityFails(users, identities, goth, fx, fr);
      NewIdentityFails(users, identities, goth, fx.(lastLogin := lastLogin), fr);
    }
  }

  lemma RegisterIgnoresLastLogin(users: seq<User>, identities: seq<ProviderIdentity>, goth: GothUser,
                                 fx: CallbackFaults, fr: Fresh, lastLogin: Option<DbError>)
    ensures RegisterEffect(users, identities, goth, fx, fr)
      == RegisterEffect(users, identities, goth, fx.(lastLogin := lastLogin), fr)
  {
    var fx' := fx.(lastLogin := lastLogin);
    assert fx'.createUser == fx.createUser && fx'.fetchUser == fx.fetchUser;
    var created := CreateUserEffect(users, UserFor(goth, fr.usernameRnd), fr.userId, fr.now, fx.createUser);
    if created.0.Ok? {
      FinishRegisterIgnoresLastLogin(created.1, identities, created.0.value, goth, fx, fr, lastLogin);
    }
  }

  lemma FinishRegisterIgnoresLastLogin(users: seq<User>, identities: seq<ProviderIdentity>, newUserId: string,
                                       goth: GothUser, fx: CallbackFaults, fr: Fresh, lastLogin: Option<DbError>)
    ensures FinishRegister(users, identities, newUserId, goth, fx, fr)
      == FinishRegister(users, identities, newUserId, goth, fx.(lastLogin := lastLogin), fr)
  {
    var fetched := GetUserByID(users, newUserId, fx.fetchUser);
    if fetched.Ok? {
      AttachIgnoresLastLogin(users, identities, fetched.value, goth, fx, fr, lastLogin);
    }
  }

  lemma AttachIgnoresLastLogin(users: seq<User>, identities: seq<ProviderIdentity>, u: User, goth: GothUser,
                               fx: CallbackFaults, fr: Fresh, lastLogin: Option<DbError>)
    requires u in users
    ensures AttachIdentity(users, identities, u, goth, fx, fr)
      == AttachIdentity(users, identities, u, goth, fx.(lastLogin := lastLogin), fr)
  {
  }

  /** What the client and the session see after step 6 does not depend on the users table. */
  lemma FinishLoginIgnoresUsers(users: seq<User>, users': seq<User>, identities: seq<ProviderIdentity>,
                                values: map<string, SessionValue>, loadFailed: bool,
                                saved: Option<map<string, SessionValue>>, appUserId: string, u: User,
                                redirectUrl: string, frontendBaseUrl: string, saveFails: bool)
    ensures var b := FinishLogin(users, identities, values, loadFailed, saved, appUserId, u, redirectUrl, frontendBaseUrl, saveFails);
      var b' := FinishLogin(users', identities, values, loadFailed, saved, appUserId, u, redirectUrl, frontendBaseUrl, saveFails);
      b.values == b'.values && b.saved == b'.saved && b.replies == b'.replies && b.failed == b'.failed
  {
  }

  /**
   * The commit runs after the session was saved and the redirect written: if
   * it fails after a registration, the client still receives the redirect
   * and a cookie naming a user that does not exist.
   */
  lemma CommitFailureLeavesDanglingSession(s: Snapshot, values: map<string, SessionValue>,
                                           saved: Option<map<string, SessionValue>>, urlProvider: string,
                                           frontendBaseUrl: string, auth: Result<GothUser, string>,
                                           fx: CallbackFaults, fr: Fresh)
    requires auth.Ok? && auth.value.provider == urlProvider && fx.beginTx.None? && !fx.finalSaveFails
    requires !fx.panics && fx.commit.Some? && fr.userId !in UserIds(s.users)
    requires StepFour(s, values, frontendBaseUrl, auth.value, fx, fr).failure.None?
    requires StepFour(s, values, frontendBaseUrl, auth.value, fx, fr).appUserId == fr.userId
    ensures var o := OAuthCallback(s, values, false, saved, urlProvider, frontendBaseUrl, auth, fx, fr);
      Received(o.replies).Some? && Received(o.replies).value.Redirect?
      && o.saved.Some? && UserIdKey in o.saved.value && o.saved.value[UserIdKey] == SStr(fr.userId)
      && fr.userId !in UserIds(o.state.users)
  {
    SuccessfulCallback(s, values, saved, urlProvider, frontendBaseUrl, auth, fx, fr);
  }

  /**
   * PostgreSQL aborts an open transaction when one of its statements fails
   * on the server, and the COMMIT that follows then fails. A fault
   * combination agrees with this when a server-side failure of either
   * statement the callback only logs (the last-login update and the refresh
   * of a returning identity) comes with a failed commit.
   */
  predicate AbortsOnServerFault(fx: CallbackFaults)
  {
    && (fx.lastLogin.Some? && fx.lastLogin.value.PgError? ==> fx.commit.Some?)
    && (fx.refreshIdentity.Some? && fx.refreshIdentity.value.PgError? ==> fx.commit.Some?)
  }

  /**
   * Under that reading, a server-side failure of the logged-only last-login
   * update does not leave the login committed: the tables are rolled back,
   * yet the client receives the redirect, then a 500, and a cookie naming
   * the resolved user.
   */
  lemma LoggedServerFaultRollsBack(s: Snapshot, values: map<string, SessionValue>,
                                   saved: Option<map<string, SessionValue>>, urlProvider: string,
                                   frontendBaseUrl: string, auth: Result<GothUser, string>,
                                   fx: CallbackFaults, fr: Fresh)
    requires auth.Ok? && auth.value.provider == urlProvider && fx.beginTx.None? && !fx.finalSaveFails
    requires StepFour(s, values, frontendBaseUrl, auth.value, fx, fr).failure.None?
    requires AbortsOnServerFault(fx) && fx.lastLogin.Some? && fx.lastLogin.value.PgError?
    ensures var r := StepFour(s, values, frontendBaseUrl, auth.value, fx, fr);
      var intent := DetectIntent(values, auth.value.provider, frontendBaseUrl);
      var o := OAuthCallback(s, values, false, saved, urlProvider, frontendBaseUrl, auth, fx, fr);
      o.state == s
      && o.replies == [Redirect(FinalRedirect(intent.redirectUrl, frontendBaseUrl)),
                       ErrorResponse(StatusInternalServerError, InternalServerError)]
      && o.saved.Some? && UserIdKey in o.saved.value && o.saved.value[UserIdKey] == SStr(r.appUserId)
  {
    SuccessfulCallback(s, values, saved, urlProvider, frontendBaseUrl, auth, fx, fr);
  }

  /** The update of the last login keeps every user id. */
  lemma {:induction false} LastLoginKeepsIds(users: seq<User>, userId: string, at: int, fault: Option<DbError>)
    ensures UserIds(UpdateUserEffect(users, userId, LastLogin(at), fault, LastLoginNotFound(userId)).1) == UserIds(users)
  {
    var r := UpdateUserRows(users, userId, LastLogin(at));
    forall id | id in UserIds(users)
      ensures id in UserIds(r)
    {
      var k :| 0 <= k < |users| && users[k].userId == id;
      assert r[k].userId == id;
    }
    forall id | id in UserIds(r)
      ensures id in UserIds(users)
    {
      var k :| 0 <= k < |r| && r[k].userId == id;
      assert users[k].userId == id;
    }
  }

  /**
   * Partner of the current-user endpoint: after a committed callback the
   * cookie it wrote authenticates the resolved user.
   */
  lemma CallbackThenCurrentUser(s: Snapshot, values: map<string, SessionValue>, saved: Option<map<string, SessionValue>>,
                                urlProvider: string, frontendBaseUrl: string, auth: Result<GothUser, string>,
                                fx: CallbackFaults, fr: Fresh, format: int -> string)
    requires auth.Ok? && auth.value.provider == urlProvider && fx.beginTx.None? && !fx.finalSaveFails
    requires !fx.panics && fx.commit.None? && "" !in UserIds(s.users) && fr.userId != ""
    requires StepFour(s, values, frontendBaseUrl, auth.value, fx, fr).failure.None?
    ensures var o := OAuthCallback(s, values, false, saved, urlProvider, frontendBaseUrl, auth, fx, fr);
      var r := StepFour(s, values, frontendBaseUrl, auth.value, fx, fr);
      o.saved.Some?
      && var me := GetCurrentUser(false, o.saved.value, o.state.users, None, format);
      me.status == StatusOK && me.body.data.UserData? && me.body.data.user.userId == r.appUserId
  {
    var r := StepFour(s, values, frontendBaseUrl, auth.value, fx, fr);
    SuccessfulCallback(s, values, saved, urlProvider, frontendBaseUrl, auth, fx, fr);
    LastLoginKeepsIds(r.users, r.appUserId, fr.now, fx.lastLogin);
    assert r.appUserId in UserIds(r.users) by {
      assert r.sessionUser.value in r.users;
    }
  }

  // ---------------------------------------------------------------- initiating a link

  /**
   * Partner of HandleInitiateLink: a session it prepared for a provider makes
   * that provider's callback a linking flow for the logged-in user, and only
   * that provider's.
   */
  lemma InitiatedLinkIsHonoured(loadFailed: bool, values: map<string, SessionValue>,
                                saved: Option<map<string, SessionValue>>, providerName: string, providerAuthUrl: string,
                                callbackProvider: string, frontendBaseUrl: string)
    requires InitiateLink(loadFailed, values, saved, providerName, false, providerAuthUrl).replies[0].Redirect?
    ensures var v := InitiateLink(loadFailed, values, saved, providerName, false, providerAuthUrl).values;
      (IsLinkingFlow(v, callbackProvider) <==> callbackProvider == providerName)
      && (callbackProvider == providerName ==>
            DetectIntent(v, callbackProvider, frontendBaseUrl)
              == Intent(true, values[UserIdKey].s, frontendBaseUrl + "/settings"))
  {
    var v := InitiateLink(loadFailed, values, saved, providerName, false, providerAuthUrl).values;
    LinkingFlowIff(v, callbackProvider);
  }
}
